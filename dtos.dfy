/** The transfer object the HTTP layer sends for a movie: a flat, field-for-field
    projection of the entity. */
module Dtos {
  import opened Domain

  datatype PeliculaDto = PeliculaDto(
    id: int, titulo: string, director: string, anio: int, genero: string, vista: bool, calificacion: real)

  /** The entity state a transfer object describes. */
  function AsRegistro(d: PeliculaDto): Registro {
    Registro(d.id, Datos(d.titulo, d.director, d.anio, d.genero, d.calificacion), d.vista)
  }

  /** The projection loses nothing: the transfer object describes exactly the
      entity's current state, every one of the seven fields copied as is. */
  function FromDomain(p: Pelicula): (d: PeliculaDto)
    reads p
    ensures AsRegistro(d) == p.Value()
  {
    PeliculaDto(p.id, p.titulo, p.director, p.anio, p.genero, p.vista, p.calificacion)
  }

  /** Flipping the entity's watched flag and then projecting gives the old
      projection with its watched flag negated, all other fields equal. */
  twostate lemma FromDomainAfterToggle(p: Pelicula)
    requires p.Value() == old(p.Value()).(vista := !old(p.vista))
    ensures FromDomain(p) == old(FromDomain(p)).(vista := !old(FromDomain(p)).vista)
  {
  }
}
