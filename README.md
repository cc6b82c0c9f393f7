# League bookkeeping model

A Dafny model of the small football-league bookkeeping program in
`Main.java`: players (`Jugador`) with cumulative goal and match counters, a
match (`Partido`) between two rosters that tallies goals per player and per
team, picks a winner and a top scorer and finally folds its tallies into
the players' counters, and the season filter for players with more than
five goals.

- `jugador.dfy`, module `Jugadores`: class `Jugador`. `id` and `nombre` are
  `const` (the Java fields are never reassigned); the two counters are
  mutable fields. Players are compared by reference, as in Java, where
  `Jugador` has no `equals`/`hashCode`.
- `partido.dfy`, module `Partidos`: class `Partido` with the two rosters
  (`seq<Jugador>`), the tally map `map<Jugador, int>` and the two totals.
  `Valid()` is the object invariant: the tally map has an entry for exactly
  the rostered players, and, when the rosters are well formed (each
  duplicate-free, none shared), each team total is the sum of its players'
  tallies. The Java constructor does not check well-formedness, so the model
  does not require it either; the sum invariant and the "exactly one more
  match" of finalization are stated under it.
  `RegistrarGol` returns `Resultado.Error` with the exception's message
  where Java throws `IllegalArgumentException`.
- `temporada.dfy`, module `Temporada`: the filter `ConMasDeCincoGoles` and
  a client showing that finalizing a match twice counts it twice.

The winner strings are `"Equipo A"`, `"Equipo B"` and `"Empate"`.
`jugadorConMasGoles` returns a player whenever the tally map is non-empty,
also in a 0-0 match; it is absent only when both rosters are empty. On equal
tallies the stream `max`, a reduction with `BinaryOperator.maxBy`, keeps the
entry it visited first.

## Model

| member | source | states |
|---|---|---|
| `Jugadores.Jugador.constructor` | Main.java:14-19 | a new player has the given id and name, 0 goals and 0 matches |
| `Jugadores.Jugador.ActualizarEstadisticas` | Main.java:39-42 | goals grow by exactly the match's goals, matches by exactly 1; id and name cannot change |
| `Partidos.Partido.constructor` | Main.java:65-79 | both totals are 0; every player of either roster, and no one else, has tally 0; the object invariant holds |
| `Partidos.SumaGolesCeros` | Main.java:72-78 | a roster whose players all have tally 0 sums to 0, so fresh totals agree with the tallies |
| `Partidos.Partido.RegistrarGol` | Main.java:82-94 | a player of roster A adds the goals to total A only, otherwise a player of roster B to total B only (A wins when in both); the player's tally grows by the goals; a player on neither roster gets the error and nothing changes; the object invariant, hence total = sum of roster tallies, is kept |
| `Partidos.SumaGolesTrasGol` | Main.java:91-93 | adding n to one tally raises a roster's tally sum by n times the positions that player holds there |
| `Partidos.ApareceUnaVez` | Main.java:83-86 | in a duplicate-free roster a member holds exactly one position |
| `Partidos.Partido.EquipoGanador` | Main.java:97-105 | "Equipo A" iff A scored more, "Equipo B" iff B scored more, "Empate" iff the totals are equal (0-0 included); reads only |
| `Partidos.Partido.GanadorPorTallies` | Main.java:97-105 | on well-formed rosters the same verdict follows from the sums of the players' tallies |
| `Partidos.MaxPorGoles` | Main.java:126-131 | the maxBy reduction over the entries in visiting order: absent iff nothing is visited, otherwise a visited player whose tally is at least every visited tally |
| `Partidos.MaxPorGolesEsElPrimero` | Main.java:126-131 | on ties the reduction yields the first maximal entry visited: every earlier entry has a strictly smaller tally |
| `Partidos.Partido.JugadorConMasGoles` | Main.java:126-131 | for any visiting order of the tally map: absent iff both rosters are empty; otherwise a rostered player whose tally is at least every tally, also when all are 0 |
| `Partidos.AporteEsProducto` | Main.java:136-141 | what a roster's loop adds to one player's goals is its tally times the positions it holds |
| `Partidos.Partido.UnaSolaPosicion` | Main.java:134-142 | on well-formed rosters every rostered player holds exactly one position in the two rosters together |
| `Partidos.Partido.ActualizarPlantilla` | Main.java:136-141 | one finalization loop: each player of the roster gains its tally and one match per position it holds |
| `Partidos.Partido.FinalizarPartido` | Main.java:134-142 | every rostered player gains tally times positions held and one match per position; on well-formed rosters exactly its tally and one match; nobody off the rosters and nothing in the match changes |
| `Temporada.FinalizarDosVeces` | Main.java:134-142 | nothing prevents a second finalization: on any rosters each player gains twice its tally times its positions, and two matches per position; on well-formed rosters twice its tally and two matches |
| `Temporada.ConMasDeCincoGoles` | Main.java:146-150 | every player kept has more than five goals (exactly five is left out), and the result keeps the input order |
| `Temporada.ConMasDeCincoGolesCompleto` | Main.java:146-150 | the result takes nothing that is not in the input and keeps every occurrence of every player with more than five goals |

## Left out

- `main` (Main.java:166-234): the driver that builds six players, plays three rounds with `java.util.Random` goal draws and prints; randomness and console output are not modelled.
- `mostrarJugadoresConMasDeCincoGoles` (Main.java:153-164): it only prints the result of the filter, which is modelled.
- `Jugador.toString` (Main.java:46-53) and `Partido.detallesPartido` (Main.java:108-123): text formatting; the per-player lines of the details follow the HashMap's order.
- The getters of `Jugador` (Main.java:22-36): the model reads the fields directly.
- HashMap iteration order: `Partidos.Partido.JugadorConMasGoles` takes the order in which the map's entries are visited as a parameter `orden` (each key once) instead of fixing one.
- `Jugadores.Jugador.ActualizarEstadisticas`: does not model Java's 32-bit `int` wrap-around; counters are unbounded integers.
- `Partidos.Partido.RegistrarGol`: does not model 32-bit wrap-around of the totals and tallies either.
- `null`: Java would accept a `null` player or roster; Dafny references here are non-null, so those inputs are not modelled.
- Aliasing of the rosters: Java keeps the caller's `List` objects; the model stores them as immutable sequences (the program never changes them after building them).
