/**
 * The movie entity `Pelicula` of the catalogue's back end: its field guards,
 * its construction, its full-replace update and its watched flag.
 *
 * The clock (`DateTime.UtcNow.Year`) is the parameter `currentYear`; the
 * rating, a `double` in the source, is a `real`, since it only takes part in
 * inclusive comparisons with 0 and 10.
 */
module Domain {
  import opened Wrappers

  /** The earliest release year a movie may have. */
  const MinAnio: int := 1888

  /** How many years past the current one a release year may lie. */
  const MaxAniosFuturos: int := 5

  /** .NET's `char.IsWhiteSpace`: the Unicode space, line and paragraph
      separators, the controls U+0009 to U+000D, and U+0085. */
  predicate IsWhiteSpace(c: char) {
    || c == ' '
    || '\t' <= c <= '\r'
    || c == '\U{85}'
    || c == '\U{A0}'
    || c == '\U{1680}'
    || '\U{2000}' <= c <= '\U{200A}'
    || c == '\U{2028}'
    || c == '\U{2029}'
    || c == '\U{202F}'
    || c == '\U{205F}'
    || c == '\U{3000}'
  }

  /** `string.IsNullOrWhiteSpace` on a non-null string: empty, or every
      character white space. */
  predicate IsNullOrWhiteSpace(s: string) {
    forall i :: 0 <= i < |s| ==> IsWhiteSpace(s[i])
  }

  /** A string with a character that is not white space is not blank. */
  lemma NotBlank(s: string, i: nat)
    requires i < |s| && !IsWhiteSpace(s[i])
    ensures !IsNullOrWhiteSpace(s)
  {
  }

  /** The five arguments that the constructor and `Actualizar` take. */
  datatype Datos = Datos(titulo: string, director: string, anio: int, genero: string, calificacion: real)

  /** The whole state of an entity: its key, its data and its watched flag. */
  datatype Registro = Registro(id: int, datos: Datos, vista: bool)

  /** The field an `ArgumentException` names (`nameof(...)` in the source). */
  datatype Field = Titulo | Director | Genero | Anio | Calificacion

  /** Position of a field's guard among the guards, in the order they run. */
  function Rank(f: Field): nat {
    match f
    case Titulo => 0
    case Director => 1
    case Genero => 2
    case Anio => 3
    case Calificacion => 4
  }

  /** Whether the argument given for field `f` is acceptable on its own. */
  predicate Passes(f: Field, d: Datos, currentYear: int) {
    match f
    case Titulo => !IsNullOrWhiteSpace(d.titulo)
    case Director => !IsNullOrWhiteSpace(d.director)
    case Genero => !IsNullOrWhiteSpace(d.genero)
    case Anio => MinAnio <= d.anio <= currentYear + MaxAniosFuturos
    case Calificacion => 0.0 <= d.calificacion <= 10.0
  }

  /** Every one of the five arguments is acceptable. */
  predicate ValidFields(d: Datos, currentYear: int) {
    && Passes(Titulo, d, currentYear)
    && Passes(Director, d, currentYear)
    && Passes(Genero, d, currentYear)
    && Passes(Anio, d, currentYear)
    && Passes(Calificacion, d, currentYear)
  }

  /** The guard-and-throw block shared by the constructor and `Actualizar`:
      `None` when no guard throws, otherwise the field named by the first
      guard that throws. */
  function Validate(d: Datos, currentYear: int): (r: Option<Field>)
    ensures r.None? <==> ValidFields(d, currentYear)
    ensures r.Some? ==> !Passes(r.value, d, currentYear)
    ensures r.Some? ==> forall f :: Rank(f) < Rank(r.value) ==> Passes(f, d, currentYear)
  {
    if IsNullOrWhiteSpace(d.titulo) then Some(Titulo)
    else if IsNullOrWhiteSpace(d.director) then Some(Director)
    else if IsNullOrWhiteSpace(d.genero) then Some(Genero)
    else if d.anio < MinAnio || d.anio > currentYear + MaxAniosFuturos then Some(Anio)
    else if d.calificacion < 0.0 || d.calificacion > 10.0 then Some(Calificacion)
    else None
  }

  /** What every stored entity satisfies whatever the clock says: the field
      guards, except the upper bound on the year, which only widens as the
      clock advances. */
  predicate Invariant(r: Registro) {
    && !IsNullOrWhiteSpace(r.datos.titulo)
    && !IsNullOrWhiteSpace(r.datos.director)
    && !IsNullOrWhiteSpace(r.datos.genero)
    && MinAnio <= r.datos.anio
    && 0.0 <= r.datos.calificacion <= 10.0
  }

  lemma ValidFieldsGiveInvariant(id: int, d: Datos, vista: bool, currentYear: int)
    requires ValidFields(d, currentYear)
    ensures Invariant(Registro(id, d, vista))
  {
  }

  /** Arguments accepted in one year are accepted in every later year. */
  lemma ValidFieldsLater(d: Datos, currentYear: int, laterYear: int)
    requires ValidFields(d, currentYear) && currentYear <= laterYear
    ensures ValidFields(d, laterYear)
  {
  }

  /** An empty or white-space-only title, director or genre is rejected and
      the exception names that field, unless an earlier guard threw first. */
  lemma BlankTextRejected(d: Datos, currentYear: int, blank: string)
    requires IsNullOrWhiteSpace(blank)
    ensures Validate(d.(titulo := blank), currentYear) == Some(Titulo)
    ensures !IsNullOrWhiteSpace(d.titulo) ==> Validate(d.(director := blank), currentYear) == Some(Director)
    ensures !IsNullOrWhiteSpace(d.titulo) && !IsNullOrWhiteSpace(d.director) ==>
              Validate(d.(genero := blank), currentYear) == Some(Genero)
  {
  }

  /** The year guard accepts exactly [1888, currentYear + 5]: both ends are
      accepted and the years just outside are rejected, naming the year. */
  lemma AnioBoundsInclusive(d: Datos, currentYear: int)
    requires Passes(Titulo, d, currentYear) && Passes(Director, d, currentYear) && Passes(Genero, d, currentYear)
    requires Passes(Calificacion, d, currentYear)
    requires MinAnio <= currentYear + MaxAniosFuturos
    ensures Validate(d.(anio := MinAnio), currentYear) == None
    ensures Validate(d.(anio := currentYear + MaxAniosFuturos), currentYear) == None
    ensures Validate(d.(anio := MinAnio - 1), currentYear) == Some(Anio)
    ensures Validate(d.(anio := currentYear + MaxAniosFuturos + 1), currentYear) == Some(Anio)
  {
  }

  /** The rating guard accepts exactly [0, 10]: both ends are accepted and
      any value outside is rejected, naming the rating. */
  lemma CalificacionBoundsInclusive(d: Datos, currentYear: int, outside: real)
    requires Passes(Titulo, d, currentYear) && Passes(Director, d, currentYear) && Passes(Genero, d, currentYear)
    requires Passes(Anio, d, currentYear)
    requires outside < 0.0 || 10.0 < outside
    ensures Validate(d.(calificacion := 0.0), currentYear) == None
    ensures Validate(d.(calificacion := 10.0), currentYear) == None
    ensures Validate(d.(calificacion := outside), currentYear) == Some(Calificacion)
  {
  }

  /** The movie entity. Its properties have private setters in the source:
      only the members below (and the persistence mapper) assign them. */
  class Pelicula {
    var id: int
    var titulo: string
    var director: string
    var anio: int
    var genero: string
    var vista: bool
    var calificacion: real

    /** The entity's state as a value. */
    function Value(): Registro
      reads this
    {
      Registro(id, Datos(titulo, director, anio, genero, calificacion), vista)
    }

    ghost predicate Valid()
      reads this
    {
      Invariant(Value())
    }

    /** The assignments that end the public constructor, reached only once
        every guard has passed; the key is the default 0 until the store
        assigns one. */
    constructor Init(titulo: string, director: string, anio: int, genero: string, calificacion: real,
                     ghost currentYear: int)
      requires Validate(Datos(titulo, director, anio, genero, calificacion), currentYear) == None
      ensures Valid()
      ensures Value() == Registro(0, Datos(titulo, director, anio, genero, calificacion), false)
    {
      this.id := 0;
      this.titulo := titulo;
      this.director := director;
      this.anio := anio;
      this.genero := genero;
      this.vista := false;
      this.calificacion := calificacion;
      new;
      ValidFieldsGiveInvariant(0, Datos(titulo, director, anio, genero, calificacion), false, currentYear);
    }

    /** The persistence mapper's way in: the private parameterless
        constructor followed by setting every property from a stored row. */
    constructor Load(r: Registro)
      ensures Value() == r
    {
      id := r.id;
      titulo := r.datos.titulo;
      director := r.datos.director;
      anio := r.datos.anio;
      genero := r.datos.genero;
      vista := r.vista;
      calificacion := r.datos.calificacion;
    }

    /** The public constructor: runs the guards in order and throws
        (`Failure`) naming the first failing field, or builds an unwatched
        movie holding exactly the five arguments. */
    static method New(titulo: string, director: string, anio: int, genero: string, calificacion: real,
                      currentYear: int)
      returns (r: Result<Pelicula, Field>)
      ensures r.Failure? <==> !ValidFields(Datos(titulo, director, anio, genero, calificacion), currentYear)
      ensures r.Failure? ==> Validate(Datos(titulo, director, anio, genero, calificacion), currentYear) == Some(r.error)
      ensures r.Success? ==> fresh(r.value) && r.value.Valid()
      ensures r.Success? ==> r.value.Value() == Registro(0, Datos(titulo, director, anio, genero, calificacion), false)
    {
      var err := Validate(Datos(titulo, director, anio, genero, calificacion), currentYear);
      if err.Some? {
        return Failure(err.value);
      }
      var p := new Pelicula.Init(titulo, director, anio, genero, calificacion, currentYear);
      return Success(p);
    }

    method MarcarComoVista()
      modifies this
      ensures Value() == old(Value()).(vista := true)
      ensures old(Valid()) ==> Valid()
    {
      vista := true;
    }

    method MarcarComoNoVista()
      modifies this
      ensures Value() == old(Value()).(vista := false)
      ensures old(Valid()) ==> Valid()
    {
      vista := false;
    }

    /** Full replace of the five data fields. The guards all run before any
        assignment, so a throwing call (`Some(field)`) changes nothing; a
        successful one keeps the key and the watched flag. */
    method Actualizar(titulo: string, director: string, anio: int, genero: string, calificacion: real,
                      currentYear: int)
      returns (err: Option<Field>)
      modifies this
      ensures err == Validate(Datos(titulo, director, anio, genero, calificacion), currentYear)
      ensures err.Some? ==> Value() == old(Value())
      ensures err.None? ==> Value() == old(Value()).(datos := Datos(titulo, director, anio, genero, calificacion))
      ensures err.None? ==> Valid()
      ensures old(Valid()) ==> Valid()
    {
      err := Validate(Datos(titulo, director, anio, genero, calificacion), currentYear);
      if err.Some? {
        return;
      }
      this.titulo := titulo;
      this.director := director;
      this.anio := anio;
      this.genero := genero;
      this.calificacion := calificacion;
      ValidFieldsGiveInvariant(id, Datos(titulo, director, anio, genero, calificacion), vista, currentYear);
    }
  }
}
