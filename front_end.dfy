/**
 * What the two Angular front ends share: the movie record of their model
 * interface, the lookup `peliculas.find(p => p.id === id)`, and the in-place
 * flip of the found record's `vista` that both `toggleVista` methods perform.
 */
module FrontEnd {
  import opened Wrappers

  /** A movie record as the front ends hold it; numbers are integers except
      the rating. */
  datatype Pelicula = Pelicula(
    id: int, titulo: string, director: string, anio: int, genero: string, vista: bool, calificacion: real)

  /** No two records share an id. */
  predicate DistinctIds(s: seq<Pelicula>) {
    forall i, j :: 0 <= i < j < |s| ==> s[i].id != s[j].id
  }

  /** Where `find` stops: the index of the first record whose id equals `id`,
      or None when no record matches. */
  function FindIndex(s: seq<Pelicula>, id: int): (r: Option<nat>)
    ensures r.None? <==> forall i :: 0 <= i < |s| ==> s[i].id != id
    ensures r.Some? ==> r.value < |s| && s[r.value].id == id
    ensures r.Some? ==> forall i :: 0 <= i < r.value ==> s[i].id != id
    decreases |s|
  {
    if |s| == 0 then None
    else if s[0].id == id then Some(0)
    else match FindIndex(s[1..], id)
         case None => None
         case Some(k) => Some(k + 1)
  }

  /** Where the ids are distinct, the first match is the only match. */
  lemma FindIndexUnique(s: seq<Pelicula>, id: int, i: nat)
    requires DistinctIds(s) && i < |s|
    ensures FindIndex(s, id) == Some(i) <==> s[i].id == id
  {
  }

  /** `find` looks at ids alone: two arrays with the same ids position by
      position stop at the same index. */
  lemma FindIndexSameIds(s: seq<Pelicula>, t: seq<Pelicula>, id: int)
    requires |s| == |t| && forall i :: 0 <= i < |s| ==> s[i].id == t[i].id
    ensures FindIndex(s, id) == FindIndex(t, id)
  {
  }

  /** The array after `toggleVista(id)`. */
  function Toggled(s: seq<Pelicula>, id: int): (r: seq<Pelicula>)
    ensures |r| == |s|
    ensures (forall i :: 0 <= i < |s| ==> s[i].id != id) ==> r == s
    ensures forall i :: 0 <= i < |s| ==> r[i] == s[i].(vista := r[i].vista)
    ensures forall i :: 0 <= i < |s| && s[i].id == id && (forall j :: 0 <= j < i ==> s[j].id != id) ==>
              r[i].vista == !s[i].vista
    ensures forall i :: 0 <= i < |s| && r[i].vista != s[i].vista ==>
              s[i].id == id && forall j :: 0 <= j < i ==> s[j].id != id
  {
    match FindIndex(s, id)
    case None => s
    case Some(i) => s[i := s[i].(vista := !s[i].vista)]
  }

  /** Toggling the same id twice restores the array. */
  lemma ToggledTwice(s: seq<Pelicula>, id: int)
    ensures Toggled(Toggled(s, id), id) == s
  {
    FindIndexSameIds(s, Toggled(s, id), id);
  }

  /** Toggling keeps the ids, so it keeps them distinct. */
  lemma ToggledKeepsDistinctIds(s: seq<Pelicula>, id: int)
    requires DistinctIds(s)
    ensures DistinctIds(Toggled(s, id))
  {
  }
}
