/** The movie list component of the second Angular front end: a fixed array
    of movies and a watched-flag toggle on it. */
module GestorPeliculaList {
  import opened FrontEnd

  /** The array the component starts with. */
  function Seed(): seq<Pelicula> {
    [ Pelicula(1, "Inception", "Christopher Nolan", 2010, "Ciencia Ficci\U{F3}n", true, 9.0),
      Pelicula(2, "The Shawshank Redemption", "Frank Darabont", 1994, "Drama", false, 10.0),
      Pelicula(3, "The Dark Knight", "Christopher Nolan", 2008, "Acci\U{F3}n", true, 9.0),
      Pelicula(4, "Pulp Fiction", "Quentin Tarantino", 1994, "Crimen", false, 8.0),
      Pelicula(5, "The Matrix", "Lana Wachowski", 1999, "Ciencia Ficci\U{F3}n", true, 9.0) ]
  }

  /** The seed holds five records with ids 1 to 5, pairwise distinct, and
      every rating within [0, 10]. */
  lemma SeedWellFormed()
    ensures |Seed()| == 5 && forall i :: 0 <= i < 5 ==> Seed()[i].id == i + 1
    ensures DistinctIds(Seed())
    ensures forall i :: 0 <= i < 5 ==> 0.0 <= Seed()[i].calificacion <= 10.0
  {
  }

  class PeliculaListComponent {
    var peliculas: seq<Pelicula>

    constructor ()
      ensures peliculas == Seed()
    {
      peliculas := Seed();
    }

    /** Negates `vista` of the first record whose id matches; nothing
        happens when none does. */
    method ToggleVista(id: int)
      modifies this
      ensures peliculas == Toggled(old(peliculas), id)
    {
      var found := FindIndex(peliculas, id);
      if found.Some? {
        var i := found.value;
        peliculas := peliculas[i := peliculas[i].(vista := !peliculas[i].vista)];
      }
    }
  }
}
