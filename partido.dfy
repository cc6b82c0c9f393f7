/** A match (Partido) between two rosters: a per-player goal tally for this
    match, the two team totals, and the queries and the final update that
    the season simulation performs on it. */
module Partidos {
  import opened Jugadores

  datatype Option<T> = None | Some(value: T)

  /** Outcome of registering a goal: the Java method either returns normally
      or throws IllegalArgumentException with the message below. */
  datatype Resultado = Ok | Error(mensaje: string)

  const MensajeJugadorAjeno := "El jugador no pertenece a ningún equipo del partido"

  /** The tally of `j` in `m`, or 0 when `j` has no entry (Java's getOrDefault). */
  function GolesDe(m: map<Jugador, int>, j: Jugador): int
  {
    if j in m then m[j] else 0
  }

  /** Sum of the tallies of the players of a roster, one term per position. */
  function SumaGoles(s: seq<Jugador>, m: map<Jugador, int>): int
  {
    if s == [] then 0 else SumaGoles(s[..|s| - 1], m) + GolesDe(m, s[|s| - 1])
  }

  predicate SinRepetidos(s: seq<Jugador>)
  {
    forall a, b :: 0 <= a < b < |s| ==> s[a] != s[b]
  }

  predicate Disjuntos(s: seq<Jugador>, t: seq<Jugador>)
  {
    forall j :: j in s ==> j !in t
  }

  /** Adding `n` to one player's tally raises a roster's sum by `n` for each
      position that player holds in the roster. */
  lemma {:induction false} SumaGolesTrasGol(s: seq<Jugador>, m: map<Jugador, int>, j: Jugador, n: int)
    ensures SumaGoles(s, m[j := GolesDe(m, j) + n]) == SumaGoles(s, m) + multiset(s)[j] * n
  {
    if s != [] {
      var init: seq<Jugador>, last: Jugador := s[..|s| - 1], s[|s| - 1];
      assert s == init + [last];
      SumaGolesTrasGol(init, m, j, n);
      assert multiset(s)[j] == multiset(init)[j] + (if last == j then 1 else 0);
      if last == j {
        calc {
          multiset(s)[j] * n;
          (multiset(init)[j] + 1) * n;
          multiset(init)[j] * n + n;
        }
      }
    }
  }

  /** A roster whose players all have tally 0 sums to 0. */
  lemma {:induction false} SumaGolesCeros(s: seq<Jugador>, m: map<Jugador, int>)
    requires forall k :: 0 <= k < |s| ==> GolesDe(m, s[k]) == 0
    ensures SumaGoles(s, m) == 0
  {
    if s != [] {
      SumaGolesCeros(s[..|s| - 1], m);
    }
  }

  /** In a duplicate-free roster a member holds exactly one position. */
  lemma {:induction false} ApareceUnaVez(s: seq<Jugador>, j: Jugador)
    requires SinRepetidos(s) && j in s
    ensures multiset(s)[j] == 1
  {
    var init: seq<Jugador>, last: Jugador := s[..|s| - 1], s[|s| - 1];
    assert s == init + [last];
    assert SinRepetidos(init);
    if last == j {
      assert j !in init by {
        forall k | 0 <= k < |init| ensures init[k] != j {
          assert s[k] == init[k];
        }
      }
    } else {
      ApareceUnaVez(init, j);
    }
  }

  /** What the positions of roster `s` held by `j` add to `j`'s goals when
      the match is finalized: `j`'s tally once per position. */
  function Aporte(s: seq<Jugador>, m: map<Jugador, int>, j: Jugador): int
  {
    if s == [] then 0
    else Aporte(s[..|s| - 1], m, j) + (if s[|s| - 1] == j then GolesDe(m, j) else 0)
  }

  lemma {:induction false} AporteEsProducto(s: seq<Jugador>, m: map<Jugador, int>, j: Jugador)
    ensures Aporte(s, m, j) == multiset(s)[j] * GolesDe(m, j)
  {
    if s != [] {
      var init: seq<Jugador>, last: Jugador := s[..|s| - 1], s[|s| - 1];
      assert s == init + [last];
      AporteEsProducto(init, m, j);
      assert multiset(s)[j] == multiset(init)[j] + (if last == j then 1 else 0);
      if last == j {
        assert (multiset(init)[j] + 1) * GolesDe(m, j) == multiset(init)[j] * GolesDe(m, j) + GolesDe(m, j);
      }
    }
  }

  /** Java's `stream().max(comparingByValue())` over the entries of the tally
      map, visited in the order `orden`: a left fold with
      BinaryOperator.maxBy, which keeps the element seen first when two
      tallies are equal. Empty when there is nothing to visit. */
  function MaxPorGoles(orden: seq<Jugador>, m: map<Jugador, int>): (r: Option<Jugador>)
    ensures r.None? <==> orden == []
    ensures r.Some? ==> r.value in orden
    ensures r.Some? ==> forall k :: 0 <= k < |orden| ==> GolesDe(m, orden[k]) <= GolesDe(m, r.value)
  {
    if orden == [] then None
    else
      var previo := MaxPorGoles(orden[..|orden| - 1], m);
      var ultimo := orden[|orden| - 1];
      if previo.None? then Some(ultimo)
      else if GolesDe(m, previo.value) >= GolesDe(m, ultimo) then previo
      else Some(ultimo)
  }

  /** The tie-break of the fold: the chosen player is the first position of
      `orden` with the maximal tally; every earlier one has strictly less. */
  lemma {:induction false} MaxPorGolesEsElPrimero(orden: seq<Jugador>, m: map<Jugador, int>)
    requires orden != []
    ensures exists i :: 0 <= i < |orden| && Some(orden[i]) == MaxPorGoles(orden, m) &&
                        forall k :: 0 <= k < i ==> GolesDe(m, orden[k]) < GolesDe(m, orden[i])
  {
    var init: seq<Jugador>, ultimo: Jugador := orden[..|orden| - 1], orden[|orden| - 1];
    var previo := MaxPorGoles(init, m);
    if previo.None? {
      assert init == [];
      assert Some(orden[0]) == MaxPorGoles(orden, m);
    } else {
      MaxPorGolesEsElPrimero(init, m);
      var i :| 0 <= i < |init| && Some(init[i]) == previo &&
               forall k :: 0 <= k < i ==> GolesDe(m, init[k]) < GolesDe(m, init[i]);
      if GolesDe(m, previo.value) >= GolesDe(m, ultimo) {
        assert orden[i] == init[i];
        assert forall k :: 0 <= k < i ==> orden[k] == init[k];
      } else {
        var n := |orden| - 1;
        assert forall k :: 0 <= k < n ==> GolesDe(m, orden[k]) < GolesDe(m, orden[n]) by {
          forall k | 0 <= k < n ensures GolesDe(m, orden[k]) < GolesDe(m, orden[n]) {
            assert orden[k] == init[k];
          }
        }
      }
    }
  }

  class Partido {
    /** The two rosters; membership is by reference. */
    const equipoA: seq<Jugador>
    const equipoB: seq<Jugador>
    /** Goals each rostered player scored in this match. */
    var golesPorJugador: map<Jugador, int>
    var golesEquipoA: int
    var golesEquipoB: int

    /** What the caller of the constructor is responsible for and the code
        never checks: each roster is duplicate-free and no player is in both. */
    predicate PlantillasBienFormadas()
    {
      SinRepetidos(equipoA) && SinRepetidos(equipoB) && Disjuntos(equipoA, equipoB)
    }

    /** Every rostered player, and nobody else, has a tally entry; on
        well-formed rosters each team total is the sum of its players' tallies. */
    ghost predicate Valid()
      reads this
    {
      (forall j :: j in golesPorJugador ==> j in equipoA || j in equipoB) &&
      (forall j :: j in equipoA ==> j in golesPorJugador) &&
      (forall j :: j in equipoB ==> j in golesPorJugador) &&
      (PlantillasBienFormadas() ==>
        golesEquipoA == SumaGoles(equipoA, golesPorJugador) &&
        golesEquipoB == SumaGoles(equipoB, golesPorJugador))
    }

    /** The players a finalization updates. */
    function Convocados(): set<Jugador>
    {
      (set j | j in equipoA) + (set j | j in equipoB)
    }

    /** On well-formed rosters every rostered player holds exactly one
        position in the two rosters together. */
    lemma UnaSolaPosicion(j: Jugador)
      requires PlantillasBienFormadas() && (j in equipoA || j in equipoB)
      ensures multiset(equipoA)[j] + multiset(equipoB)[j] == 1
    {
      if j in equipoA {
        ApareceUnaVez(equipoA, j);
      } else {
        ApareceUnaVez(equipoB, j);
      }
    }

    /** Both totals start at 0, and every rostered player, and nobody else,
        gets a tally of 0. The rosters are taken as they are. */
    constructor (equipoA: seq<Jugador>, equipoB: seq<Jugador>)
      ensures this.equipoA == equipoA && this.equipoB == equipoB
      ensures golesEquipoA == 0 && golesEquipoB == 0
      ensures forall j :: j in golesPorJugador <==> j in equipoA || j in equipoB
      ensures forall j :: j in golesPorJugador ==> golesPorJugador[j] == 0
      ensures Valid()
    {
      var goles: map<Jugador, int> := map[];
      for i := 0 to |equipoA|
        invariant forall j :: j in goles <==> j in equipoA[..i]
        invariant forall j :: j in goles ==> goles[j] == 0
      {
        goles := goles[equipoA[i] := 0];
      }
      assert equipoA[..|equipoA|] == equipoA;
      for i := 0 to |equipoB|
        invariant forall j :: j in goles <==> j in equipoA || j in equipoB[..i]
        invariant forall j :: j in goles ==> goles[j] == 0
      {
        goles := goles[equipoB[i] := 0];
      }
      assert equipoB[..|equipoB|] == equipoB;
      this.equipoA := equipoA;
      this.equipoB := equipoB;
      golesEquipoA := 0;
      golesEquipoB := 0;
      golesPorJugador := goles;
      SumaGolesCeros(equipoA, goles);
      SumaGolesCeros(equipoB, goles);
    }

    /** Credits `cantidadGoles` to the player's team, roster A first, and to
        the player's own tally. A player on neither roster is refused before
        anything changes. */
    method RegistrarGol(jugador: Jugador, cantidadGoles: int) returns (r: Resultado)
      requires Valid()
      modifies this
      ensures Valid()
      ensures r.Error? <==> jugador !in equipoA && jugador !in equipoB
      ensures r.Error? ==> r.mensaje == MensajeJugadorAjeno
      ensures jugador in equipoA ==>
                golesEquipoA == old(golesEquipoA) + cantidadGoles && golesEquipoB == old(golesEquipoB)
      ensures jugador !in equipoA && jugador in equipoB ==>
                golesEquipoB == old(golesEquipoB) + cantidadGoles && golesEquipoA == old(golesEquipoA)
      ensures r.Ok? ==>
                golesPorJugador == old(golesPorJugador)[jugador := old(GolesDe(golesPorJugador, jugador)) + cantidadGoles]
      ensures r.Error? ==>
                golesPorJugador == old(golesPorJugador) &&
                golesEquipoA == old(golesEquipoA) && golesEquipoB == old(golesEquipoB)
    {
      if jugador in equipoA {
        golesEquipoA := golesEquipoA + cantidadGoles;
      } else if jugador in equipoB {
        golesEquipoB := golesEquipoB + cantidadGoles;
      } else {
        return Error(MensajeJugadorAjeno);
      }
      ghost var antes := golesPorJugador;
      var golesActuales := GolesDe(golesPorJugador, jugador);
      golesPorJugador := golesPorJugador[jugador := golesActuales + cantidadGoles];
      r := Ok;
      if PlantillasBienFormadas() {
        SumaGolesTrasGol(equipoA, antes, jugador, cantidadGoles);
        SumaGolesTrasGol(equipoB, antes, jugador, cantidadGoles);
        if jugador in equipoA {
          ApareceUnaVez(equipoA, jugador);
        } else {
          ApareceUnaVez(equipoB, jugador);
        }
      }
    }

    /** "Equipo A" exactly when A scored more, "Equipo B" exactly when B
        scored more, "Empate" exactly on equal totals (0-0 included). */
    function EquipoGanador(): (r: string)
      reads this
      ensures r == "Equipo A" <==> golesEquipoA > golesEquipoB
      ensures r == "Equipo B" <==> golesEquipoB > golesEquipoA
      ensures r == "Empate" <==> golesEquipoA == golesEquipoB
    {
      if golesEquipoA > golesEquipoB then "Equipo A"
      else if golesEquipoB > golesEquipoA then "Equipo B"
      else "Empate"
    }

    /** On well-formed rosters the winner is decided by the players' tallies. */
    lemma GanadorPorTallies()
      requires Valid() && PlantillasBienFormadas()
      ensures EquipoGanador() == "Equipo A" <==>
                SumaGoles(equipoA, golesPorJugador) > SumaGoles(equipoB, golesPorJugador)
      ensures EquipoGanador() == "Equipo B" <==>
                SumaGoles(equipoB, golesPorJugador) > SumaGoles(equipoA, golesPorJugador)
      ensures EquipoGanador() == "Empate" <==>
                SumaGoles(equipoA, golesPorJugador) == SumaGoles(equipoB, golesPorJugador)
    {
    }

    /** The player with the largest tally, the tally map being visited in
        the order `orden` (an unspecified HashMap order: each key once).
        Absent exactly when both rosters are empty; otherwise a rostered
        player whose tally is at least every other tally, also when all
        tallies are 0. */
    function JugadorConMasGoles(orden: seq<Jugador>): (r: Option<Jugador>)
      reads this
      requires Valid()
      requires multiset(orden) == multiset(golesPorJugador.Keys)
      ensures r.None? <==> equipoA == [] && equipoB == []
      ensures r.Some? ==> r.value in equipoA || r.value in equipoB
      ensures r.Some? ==> forall j :: j in golesPorJugador ==> golesPorJugador[j] <= golesPorJugador[r.value]
    {
      var r := MaxPorGoles(orden, golesPorJugador);
      assert r.Some? ==> r.value in multiset(orden);
      assert forall j :: j in golesPorJugador ==> j in multiset(orden);
      assert equipoA != [] ==> equipoA[0] in golesPorJugador;
      assert equipoB != [] ==> equipoB[0] in golesPorJugador;
      assert r.Some? ==> forall j :: j in golesPorJugador ==> j in orden && GolesDe(golesPorJugador, j) <= GolesDe(golesPorJugador, r.value);
      r
    }

    /** One of the two loops of the finalization: every position of roster
        `s` adds that player's tally and one match, so a player gains its
        tally and one match per position it holds in `s`. */
    method ActualizarPlantilla(s: seq<Jugador>)
      modifies set j | j in s
      ensures forall j :: j in s ==>
                j.golesMarcados == old(j.golesMarcados) + multiset(s)[j] * GolesDe(golesPorJugador, j) &&
                j.partidosJugados == old(j.partidosJugados) + multiset(s)[j]
    {
      for i := 0 to |s|
        invariant forall j :: j in s ==>
                    j.golesMarcados == old(j.golesMarcados) + Aporte(s[..i], golesPorJugador, j)
        invariant forall j :: j in s ==>
                    j.partidosJugados == old(j.partidosJugados) + multiset(s[..i])[j]
      {
        var jugador := s[i];
        jugador.ActualizarEstadisticas(GolesDe(golesPorJugador, jugador));
        assert s[..i + 1] == s[..i] + [jugador];
      }
      assert s[..|s|] == s;
      forall j | j in s
        ensures j.golesMarcados == old(j.golesMarcados) + multiset(s)[j] * GolesDe(golesPorJugador, j)
      {
        AporteEsProducto(s, golesPorJugador, j);
      }
    }

    /** Folds the match into the players' season counters, roster A first,
        then roster B. A player gains its tally and one match per roster
        position it holds; on well-formed rosters exactly its tally and one
        match. Players on neither roster are not touched (the modifies
        clause), and the match itself does not change. */
    method FinalizarPartido()
      modifies Convocados()
      ensures forall j :: j in equipoA || j in equipoB ==>
                j.golesMarcados == old(j.golesMarcados) + (multiset(equipoA)[j] + multiset(equipoB)[j]) * GolesDe(golesPorJugador, j) &&
                j.partidosJugados == old(j.partidosJugados) + multiset(equipoA)[j] + multiset(equipoB)[j]
      ensures PlantillasBienFormadas() ==>
                forall j :: j in equipoA || j in equipoB ==>
                  j.golesMarcados == old(j.golesMarcados) + GolesDe(golesPorJugador, j) &&
                  j.partidosJugados == old(j.partidosJugados) + 1
    {
      ActualizarPlantilla(equipoA);
      ActualizarPlantilla(equipoB);
      forall j | j in equipoA || j in equipoB
        ensures j.golesMarcados == old(j.golesMarcados) + (multiset(equipoA)[j] + multiset(equipoB)[j]) * GolesDe(golesPorJugador, j)
      {
        var g := GolesDe(golesPorJugador, j);
        assert (multiset(equipoA)[j] + multiset(equipoB)[j]) * g == multiset(equipoA)[j] * g + multiset(equipoB)[j] * g;
      }
      if PlantillasBienFormadas() {
        forall j | j in equipoA || j in equipoB
          ensures j.golesMarcados == old(j.golesMarcados) + GolesDe(golesPorJugador, j)
          ensures j.partidosJugados == old(j.partidosJugados) + 1
        {
          UnaSolaPosicion(j);
          var posiciones := multiset(equipoA)[j] + multiset(equipoB)[j];
          assert posiciones * GolesDe(golesPorJugador, j) == GolesDe(golesPorJugador, j);
        }
      }
    }
  }
}
