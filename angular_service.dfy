/** The injectable `PeliculaService` of the first Angular front end: an
    in-memory array of movies with lookup by id and a watched-flag toggle. */
module AngularPeliculaService {
  import opened Wrappers
  import opened FrontEnd

  /** The array the service starts with. */
  function Seed(): seq<Pelicula> {
    [ Pelicula(1, "El Padrino", "Francis Ford Coppola", 1972, "Drama", false, 9.2),
      Pelicula(2, "Pulp Fiction", "Quentin Tarantino", 1994, "Crimen", true, 8.9),
      Pelicula(3, "Inception", "Christopher Nolan", 2010, "Ciencia Ficci\U{F3}n", false, 8.8) ]
  }

  /** The seed holds ids 1, 2 and 3 in that order, so no two records share
      an id and every lookup on it finds the only match. */
  lemma SeedIds()
    ensures |Seed()| == 3 && forall i :: 0 <= i < 3 ==> Seed()[i].id == i + 1
    ensures DistinctIds(Seed())
  {
  }

  class PeliculaService {
    var peliculas: seq<Pelicula>

    constructor ()
      ensures peliculas == Seed()
    {
      peliculas := Seed();
    }

    /** The service's own array (the caller gets the array itself). */
    function GetPeliculas(): seq<Pelicula>
      reads this
    {
      peliculas
    }

    /** The first record whose id equals `id`, or None (`undefined`) when
        none does. */
    function GetPeliculaById(id: int): (r: Option<Pelicula>)
      reads this
      ensures r.None? <==> forall i :: 0 <= i < |peliculas| ==> peliculas[i].id != id
      ensures r.Some? ==> r.value.id == id
      ensures r.Some? ==>
                exists i :: 0 <= i < |peliculas| && peliculas[i] == r.value &&
                            forall j :: 0 <= j < i ==> peliculas[j].id != id
    {
      match FindIndex(peliculas, id)
      case None => None
      case Some(i) => Some(peliculas[i])
    }

    /** Negates `vista` of the first record whose id matches; nothing
        happens when none does. */
    method ToggleVista(id: int)
      modifies this
      ensures peliculas == Toggled(old(peliculas), id)
    {
      var found := FindIndex(peliculas, id);
      if found.Some? {
        var i := found.value;
        peliculas := peliculas[i := peliculas[i].(vista := !peliculas[i].vista)];
      }
    }
  }
}
