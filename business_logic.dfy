/**
 * The back end's service layer `PeliculaService`, over the repository it
 * orchestrates. The repository's table is the map `store` from key to the
 * stored entity's state. `Actualizar` and `CambiarEstadoVista` materialise the
 * stored row as a fresh `Pelicula`, change it in place and write its state
 * back, as the repository's update does.
 */
module BusinessLogic {
  import opened Wrappers
  import opened Domain

  /** How a service call ends: normally, with the not-found exception, or
      with the entity's validation exception naming a field. */
  datatype Outcome = Ok | NotFound | Invalid(field: Field)

  /** The rows the database is seeded with. */
  function SeedStore(): map<int, Registro> {
    map[
      1 := Registro(1, Datos("El Padrino", "Francis Ford Coppola", 1972, "Drama", 9.2), false),
      2 := Registro(2, Datos("Pulp Fiction", "Quentin Tarantino", 1994, "Crimen", 8.9), true),
      3 := Registro(3, Datos("Inception", "Christopher Nolan", 2010, "Ciencia Ficci\U{F3}n", 8.8), false)
    ]
  }

  /** The table after flipping the watched flag of movie `id`. */
  function FlipVista(s: map<int, Registro>, id: int): (r: map<int, Registro>)
    requires id in s
    ensures r.Keys == s.Keys && r[id].vista == !s[id].vista
    ensures r[id] == s[id].(vista := r[id].vista)
    ensures forall k :: k in s && k != id ==> r[k] == s[k]
  {
    s[id := s[id].(vista := !s[id].vista)]
  }

  /** Flipping the same movie twice gives back the original table. */
  lemma FlipVistaTwice(s: map<int, Registro>, id: int)
    requires id in s
    ensures FlipVista(FlipVista(s, id), id) == s
  {
  }

  /** A second removal of the same key finds nothing left to remove. */
  lemma RemoveTwice(s: map<int, Registro>, id: int)
    ensures (s - {id}) - {id} == s - {id}
    ensures id !in s ==> s - {id} == s
  {
  }

  class PeliculaService {
    /** The repository's table, keyed by id. */
    var store: map<int, Registro>
    /** The key the store assigns to the next movie it inserts. */
    var nextId: int

    ghost predicate Valid()
      reads this
    {
      && 0 < nextId
      && forall k :: k in store ==> 0 < k < nextId && store[k].id == k && Invariant(store[k])
    }

    /** A service over the seeded table; keys 1 to 3 are taken. */
    constructor ()
      ensures Valid()
      ensures store == SeedStore() && nextId == 4
    {
      store := SeedStore();
      nextId := 4;
      new;
      NotBlank("El Padrino", 0);
      NotBlank("Francis Ford Coppola", 0);
      NotBlank("Drama", 0);
      NotBlank("Pulp Fiction", 0);
      NotBlank("Quentin Tarantino", 0);
      NotBlank("Crimen", 0);
      NotBlank("Inception", 0);
      NotBlank("Christopher Nolan", 0);
      NotBlank("Ciencia Ficci\U{F3}n", 0);
    }

    /** Every stored movie, each under its own key. */
    function ObtenerTodas(): (r: set<Registro>)
      reads this
      requires Valid()
      ensures forall m :: m in r <==> m.id in store && store[m.id] == m
    {
      set k | k in store :: store[k]
    }

    /** The repository's find by key: a fresh entity holding the stored
        state, or null when the key is absent. */
    method ObtenerPorId(id: int) returns (p: Pelicula?)
      ensures p == null <==> id !in store
      ensures p != null ==> fresh(p) && p.Value() == store[id]
    {
      if id in store {
        p := new Pelicula.Load(store[id]);
      } else {
        p := null;
      }
    }

    /** Builds the entity (which may throw naming a field) and inserts it
        under a key no stored movie has. */
    method Crear(titulo: string, director: string, anio: int, genero: string, calificacion: real,
                 currentYear: int)
      returns (r: Result<Pelicula, Field>)
      requires Valid()
      modifies this
      ensures Valid()
      ensures r.Failure? <==> !ValidFields(Datos(titulo, director, anio, genero, calificacion), currentYear)
      ensures r.Failure? ==> Validate(Datos(titulo, director, anio, genero, calificacion), currentYear) == Some(r.error)
      ensures r.Failure? ==> store == old(store) && nextId == old(nextId)
      ensures r.Success? ==> fresh(r.value) && r.value.id !in old(store)
      ensures r.Success? ==> r.value.Value() == Registro(r.value.id, Datos(titulo, director, anio, genero, calificacion), false)
      ensures r.Success? ==> store == old(store)[r.value.id := r.value.Value()]
      ensures r.Success? ==> |store| == |old(store)| + 1
    {
      var created := Pelicula.New(titulo, director, anio, genero, calificacion, currentYear);
      if created.Failure? {
        return Failure(created.error);
      }
      var p := created.value;
      // The insert: the store assigns the key to the tracked entity and saves it.
      p.id := nextId;
      store := store[nextId := p.Value()];
      nextId := nextId + 1;
      return Success(p);
    }

    /** Full replace of movie `id`'s five data fields. A missing key is
        reported before the arguments are looked at; a throwing update
        leaves the table as it was. */
    method Actualizar(id: int, titulo: string, director: string, anio: int, genero: string, calificacion: real,
                      currentYear: int)
      returns (r: Outcome)
      requires Valid()
      modifies this
      ensures Valid() && nextId == old(nextId)
      ensures id !in old(store) ==> r == NotFound && store == old(store)
      ensures id in old(store) ==>
                r == match Validate(Datos(titulo, director, anio, genero, calificacion), currentYear)
                     case Some(f) => Invalid(f)
                     case None => Ok
      ensures r.Invalid? ==> store == old(store)
      ensures r == Ok ==> store == old(store)[id := old(store)[id].(datos := Datos(titulo, director, anio, genero, calificacion))]
    {
      var p := ObtenerPorId(id);
      if p == null {
        return NotFound;
      }
      var err := p.Actualizar(titulo, director, anio, genero, calificacion, currentYear);
      if err.Some? {
        return Invalid(err.value);
      }
      store := store[id := p.Value()];
      return Ok;
    }

    /** Negates movie `id`'s watched flag through the entity's two setters. */
    method CambiarEstadoVista(id: int) returns (r: Outcome)
      requires Valid()
      modifies this
      ensures Valid() && nextId == old(nextId)
      ensures id !in old(store) ==> r == NotFound && store == old(store)
      ensures id in old(store) ==> r == Ok && store == FlipVista(old(store), id)
    {
      var p := ObtenerPorId(id);
      if p == null {
        return NotFound;
      }
      if p.vista {
        p.MarcarComoNoVista();
      } else {
        p.MarcarComoVista();
      }
      store := store[id := p.Value()];
      return Ok;
    }

    /** Removes movie `id` if it is stored; an absent key is not an error. */
    method Eliminar(id: int)
      requires Valid()
      modifies this
      ensures Valid() && nextId == old(nextId)
      ensures store == old(store) - {id}
    {
      var p := ObtenerPorId(id);
      if p != null {
        store := store - {id};
      }
    }
  }

  /** Create, then flip the watched flag twice. */
  method ToggleScenario(currentYear: int)
    requires 2014 <= currentYear + MaxAniosFuturos
  {
    var service := new PeliculaService();
    NotBlank("Interstellar", 0);
    NotBlank("Christopher Nolan", 0);
    NotBlank("Sci-Fi", 0);
    var created := service.Crear("Interstellar", "Christopher Nolan", 2014, "Sci-Fi", 8.6, currentYear);
    assert created.Success?;
    var id := created.value.id;
    assert id in service.store && !service.store[id].vista;
    var r := service.CambiarEstadoVista(id);
    assert r == Ok && service.store[id].vista;
    r := service.CambiarEstadoVista(id);
    assert r == Ok && !service.store[id].vista;
  }

  /** A release year before 1888 is rejected, naming the year. */
  method RejectedYearScenario(currentYear: int)
  {
    var service := new PeliculaService();
    NotBlank("X", 0);
    NotBlank("Y", 0);
    NotBlank("Z", 0);
    assert Validate(Datos("X", "Y", 1700, "Z", 5.0), currentYear) == Some(Anio);
    var rejected := service.Crear("X", "Y", 1700, "Z", 5.0, currentYear);
    assert rejected == Failure(Anio);
  }

  /** On an emptied table a key is absent to every operation. */
  method MissingScenario()
  {
    var service := new PeliculaService();
    service.Eliminar(1);
    service.Eliminar(2);
    service.Eliminar(3);
    assert service.store == map[];
    var missing := service.ObtenerPorId(999);
    assert missing == null;
    var r := service.CambiarEstadoVista(999);
    assert r == NotFound;
    service.Eliminar(999);
  }
}
