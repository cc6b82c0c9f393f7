/** A player (Jugador): an identity and two cumulative season counters.
    Players are compared by reference, as in the Java program, whose Jugador
    class defines neither equals nor hashCode. */
module Jugadores {

  class Jugador {
    /** Identity fields: set once by the constructor, never reassigned. */
    const id: int
    const nombre: string
    /** Cumulative goals over all finalized matches. */
    var golesMarcados: int
    /** Number of finalized matches this player took part in. */
    var partidosJugados: int

    /** A new player starts with no goals and no matches. */
    constructor (nombre: string, id: int)
      ensures this.nombre == nombre && this.id == id
      ensures golesMarcados == 0 && partidosJugados == 0
    {
      this.id := id;
      this.nombre := nombre;
      golesMarcados := 0;
      partidosJugados := 0;
    }

    /** Folds one match into the season counters: the match's goals are
        added, and exactly one more match is counted (also when the player
        scored nothing). Nothing is validated: a negative count is added too. */
    method ActualizarEstadisticas(golesMarcadosEnPartido: int)
      modifies this
      ensures golesMarcados == old(golesMarcados) + golesMarcadosEnPartido
      ensures partidosJugados == old(partidosJugados) + 1
    {
      golesMarcados := golesMarcados + golesMarcadosEnPartido;
      partidosJugados := partidosJugados + 1;
    }
  }
}
