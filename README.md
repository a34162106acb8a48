# Movie catalogue: entity, service and front-end stores in Dafny

This project models the logic of a small movie-catalogue application: a C#
back end (`TareasApi`) and two Angular front ends.

- **The `Pelicula` entity** (`Domain`). Five guards run before any assignment,
  in this order:
  - the title, director and genre must not be empty or white space only;
  - the year must lie in [1888, currentYear + 5];
  - the rating must lie in [0, 10].

  The first guard that fails throws, naming its field. `Validate` models these
  guards. The class `Pelicula` keeps the source's fields and its members:
  - `New` is the public constructor, and it may throw;
  - `Actualizar` replaces all five data fields, or changes nothing when a guard throws;
  - `MarcarComoVista` and `MarcarComoNoVista` set the watched flag.
- **The service `PeliculaService`** (`BusinessLogic`). The repository's table
  is the map `store` from key to entity state, and it starts with the three
  seeded rows. `Actualizar` and `CambiarEstadoVista` build a fresh `Pelicula`
  from the stored row, change it in place and write its state back.
  - A missing key is reported (`NotFound`) before any argument is validated.
  - Creation inserts under a key that is not in use.
  - Deletion removes the key if it is present and does nothing otherwise.
  - Every call keeps the table invariant: each row is stored under its own
    key, and each row passes the text guards, the rating guard and the lower
    bound on the year. The upper bound on the year is not part of it, because
    the clock is a parameter of each call.
- **The transfer object `PeliculaDto`** (`Dtos`). It is a field-for-field
  projection of the entity.
- **The two Angular stores** (`FrontEnd`, `AngularPeliculaService`,
  `GestorPeliculaList`). Each holds a `peliculas` array. `getPeliculaById`
  returns the first record with a matching id. `toggleVista` negates `vista`
  on that record. `FindIndex` and `Toggled` specify the lookup and the flip
  once for both stores.

The clock (`DateTime.UtcNow.Year`) is the parameter `currentYear`. Ratings,
which are `double` in the source and `number` in TypeScript, are `real`
here. Async calls are plain sequential calls.

## Model

| member | source | states |
|---|---|---|
| `Domain.Validate` | TareasApi/Domain/Pelicula.cs:24-37 | `None` exactly when all five guards pass; otherwise the reported field fails its guard and every field whose guard runs earlier passes (the first failing guard in the order title, director, genre, year, rating) |
| `Domain.ValidFieldsGiveInvariant` | TareasApi/Domain/Pelicula.cs:24-44 | fields that pass every guard make an entity state that satisfies the stored-entity invariant |
| `Domain.ValidFieldsLater` | TareasApi/Domain/Pelicula.cs:33 | arguments accepted under one clock reading are accepted under any later one |
| `Domain.BlankTextRejected` | TareasApi/Domain/Pelicula.cs:24-31 | an empty or white-space-only title, director or genre is rejected and that field is named, once the earlier text guards pass |
| `Domain.AnioBoundsInclusive` | TareasApi/Domain/Pelicula.cs:33-34 | years 1888 and currentYear+5 are accepted; 1887 and currentYear+6 are rejected naming the year |
| `Domain.CalificacionBoundsInclusive` | TareasApi/Domain/Pelicula.cs:36-37 | ratings 0 and 10 are accepted; any rating below 0 or above 10 is rejected naming the rating |
| `Domain.Pelicula.New` | TareasApi/Domain/Pelicula.cs:22-45 | throws exactly when a guard fails, naming the first failing field; otherwise returns a fresh valid entity holding exactly the five arguments, with key 0 and `Vista = false` |
| `Domain.Pelicula.Init` | TareasApi/Domain/Pelicula.cs:39-44 | once the guards have passed, the assignments store the five arguments and `Vista = false`, and the entity satisfies the invariant |
| `Domain.Pelicula.Load` | TareasApi/Domain/Pelicula.cs:14-19 | the persistence mapper's construction yields an entity whose state is exactly the stored row |
| `Domain.Pelicula.MarcarComoVista` | TareasApi/Domain/Pelicula.cs:48-51 | the new state is the old one with `Vista = true` and nothing else changed, so a second call changes nothing |
| `Domain.Pelicula.MarcarComoNoVista` | TareasApi/Domain/Pelicula.cs:54-57 | the new state is the old one with `Vista = false` and nothing else changed, so a second call changes nothing |
| `Domain.Pelicula.Actualizar` | TareasApi/Domain/Pelicula.cs:60-82 | reports the first failing guard exactly as `Validate`; on failure the entity is unchanged; on success the five data fields are the arguments and `Id` and `Vista` are kept |
| `BusinessLogic.PeliculaService.constructor` | TareasApi/DataAccess/PeliculaDbContext.cs:31-62 | the table starts as the three seeded rows with keys 1 to 3, and it satisfies the table invariant |
| `BusinessLogic.PeliculaService.ObtenerTodas` | TareasApi/BusinessLogic/PeliculaService.cs:15-18 | a movie is listed exactly when it is the row stored under its own key |
| `BusinessLogic.PeliculaService.ObtenerPorId` | TareasApi/BusinessLogic/PeliculaService.cs:20-23 | null exactly when the key is absent; otherwise a fresh entity whose state is the stored row |
| `BusinessLogic.PeliculaService.Crear` | TareasApi/BusinessLogic/PeliculaService.cs:25-29 | with invalid fields it throws naming the first failing field and stores nothing; otherwise it adds exactly one row, under a key not in use before, holding the arguments with `Vista = false`; the invariant is kept |
| `BusinessLogic.PeliculaService.Actualizar` | TareasApi/BusinessLogic/PeliculaService.cs:31-39 | an absent key gives `NotFound` whatever the arguments, and the table is unchanged; on a stored key a guard failure gives `Invalid` naming the first failing field, and the table is unchanged; otherwise only that row's five data fields are replaced |
| `BusinessLogic.PeliculaService.CambiarEstadoVista` | TareasApi/BusinessLogic/PeliculaService.cs:41-53 | an absent key gives `NotFound` and the table is unchanged; otherwise that row's `Vista` is negated and nothing else in the table changes |
| `BusinessLogic.PeliculaService.Eliminar` | TareasApi/DataAccess/PeliculaRepository.cs:38-46 | the table loses the key if it was stored and is otherwise unchanged; an absent key is not an error |
| `BusinessLogic.FlipVista` | TareasApi/BusinessLogic/PeliculaService.cs:47-52 | keeps the keys, negates the flag of the given row, and keeps every other field of that row and every other row |
| `BusinessLogic.FlipVistaTwice` | TareasApi/BusinessLogic/PeliculaService.cs:47-52 | flipping the same row twice restores the table |
| `BusinessLogic.RemoveTwice` | TareasApi/DataAccess/PeliculaRepository.cs:38-46 | deleting a key twice leaves the same table as deleting it once, and deleting an absent key changes nothing |
| `Dtos.FromDomain` | TareasApi/DTOs/PeliculaDto.cs:15-27 | the transfer object describes exactly the entity's state: `Id`, `Titulo`, `Director`, `Anio`, `Genero`, `Vista` and `Calificacion` are all copied unchanged |
| `Dtos.FromDomainAfterToggle` | TareasApi/DTOs/PeliculaDto.cs:24 | toggling the entity and then projecting gives the earlier projection with `Vista` negated |
| `FrontEnd.FindIndex` | ejemplo-angular-tareas/src/app/services/pelicula.service.ts:47 | `None` exactly when no record has the id; otherwise the index of a record with the id and no earlier record has it |
| `FrontEnd.FindIndexUnique` | ejemplo-angular-tareas/src/app/services/pelicula.service.ts:46-48 | with distinct ids, the first match is the only match: `find` stops at index i exactly when record i has the id |
| `FrontEnd.FindIndexSameIds` | ejemplo-angular-tareas/src/app/services/pelicula.service.ts:52 | `find` by id depends only on the ids: arrays with the same ids position by position stop at the same index |
| `FrontEnd.Toggled` | ejemplo-angular-tareas/src/app/services/pelicula.service.ts:51-56 | keeps the length, the order and every field except `vista`; with no matching id the array is unchanged; the first matching record has `vista` negated; no other record's `vista` changes |
| `FrontEnd.ToggledTwice` | ejemplo-angular-tareas/src/app/services/pelicula.service.ts:54 | toggling the same id twice restores the array |
| `FrontEnd.ToggledKeepsDistinctIds` | ejemplo-angular-tareas/src/app/services/pelicula.service.ts:51-56 | toggling keeps the ids distinct when they were distinct |
| `AngularPeliculaService.SeedIds` | ejemplo-angular-tareas/src/app/services/pelicula.service.ts:8-36 | the initial array holds ids 1, 2 and 3 in order, so the ids are pairwise distinct |
| `AngularPeliculaService.PeliculaService.constructor` | ejemplo-angular-tareas/src/app/services/pelicula.service.ts:8-38 | the service starts with the three seed records |
| `AngularPeliculaService.PeliculaService.GetPeliculaById` | ejemplo-angular-tareas/src/app/services/pelicula.service.ts:46-48 | `None` (undefined) exactly when no record has the id; otherwise a record with that id, stored at a position that no earlier record with the id precedes |
| `AngularPeliculaService.PeliculaService.ToggleVista` | ejemplo-angular-tareas/src/app/services/pelicula.service.ts:51-56 | the new array is `Toggled` of the old one, so the properties of `Toggled` and `ToggledTwice` hold |
| `GestorPeliculaList.SeedWellFormed` | gestor-peliculas/src/app/components/pelicula-list/pelicula-list.component.ts:17-63 | the initial array has five records with ids 1 to 5, pairwise distinct, and every rating is within [0, 10] |
| `GestorPeliculaList.PeliculaListComponent.constructor` | gestor-peliculas/src/app/components/pelicula-list/pelicula-list.component.ts:17-65 | the component starts with the five seed records |
| `GestorPeliculaList.PeliculaListComponent.ToggleVista` | gestor-peliculas/src/app/components/pelicula-list/pelicula-list.component.ts:71-76 | the new array is `Toggled` of the old one: only the first matching record's `vista` changes, an unmatched id changes nothing, and a double toggle is the identity |

The methods `ToggleScenario`, `RejectedYearScenario` and `MissingScenario`
in `BusinessLogic` are clients of the service. They show these scenarios
from the contracts alone:
- create, then toggle twice;
- a year of 1700 is rejected, naming the year;
- on an emptied table, a lookup finds nothing and a toggle reports `NotFound`.

## Left out

- Entity Framework Core is not modelled: change tracking, `SaveChangesAsync`, database providers and the `HasMaxLength` schema limits. The entity's guards do not enforce those limits either.
- `BusinessLogic.PeliculaService.Crear`: the model promises only a key not already in use, not the provider's exact key sequence. The model draws keys from a counter that starts above the seeded keys.
- The key counter is unbounded, so 32-bit overflow of `int` keys is not modelled.
- The repository's update of an absent key is not modelled. The service never calls it on a key it has not found.
- `BusinessLogic.PeliculaService.ObtenerTodas`: it returns a set of rows, so the order of the list the source returns is not modelled. That order is whatever the database provider gives.
- Aliasing in the front ends is not modelled. Records are values, so a caller that keeps the array from `getPeliculas`, or a record from `getPeliculaById`, does not see later toggles in this model.
- Ratings are `real`. A `double` NaN would pass the source's rating guard, because both comparisons are false, but the model has no NaN.
- `string.IsNullOrWhiteSpace` is modelled for non-null strings only. Dafny strings cannot be null, and a null argument would be rejected by the same guard.
- `AngularPeliculaService.PeliculaService.GetPeliculas` returns the `peliculas` field as it is and has no contract, so it has no row above.
- The front ends' `id` and `anio` are TypeScript numbers, but they are `int` here. The lookup only compares ids for equality, so a NaN or fractional id would simply not be found.
- Async execution (`Task`, `await`) is not modelled. Every call runs sequentially.
- The following are HTTP or UI glue and are not modelled:
  - the HTTP controller, which maps exceptions to status codes;
  - the host configuration (dependency injection, CORS, Swagger);
  - the Angular route tables;
  - the list and detail components of the first front end;
  - the second front end's detail component;
  - `verDetalle`, which is an empty stub;
  - the injected `Router`.
