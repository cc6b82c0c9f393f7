/** Season-level operations over players and matches: the report filter on
    cumulative goals, and what finalizing one match twice does. */
module Temporada {
  import opened Jugadores
  import opened Partidos

  /** The reporting threshold: a player qualifies with strictly more goals. */
  const UmbralGoles := 5

  /** `r` is `s` with some positions dropped and the rest kept in order. */
  ghost predicate EsSubsecuencia(r: seq<Jugador>, s: seq<Jugador>)
  {
    if r == [] then true
    else if s == [] then false
    else if r[0] == s[0] then EsSubsecuencia(r[1..], s[1..])
    else EsSubsecuencia(r, s[1..])
  }

  /** The players with more than five cumulative goals, in input order.
      Together the three properties pin the result down: an order-preserving
      selection of qualifying players that keeps every occurrence of each
      qualifying player; a player with exactly five goals is left out. */
  function ConMasDeCincoGoles(jugadores: seq<Jugador>): (r: seq<Jugador>)
    reads set j | j in jugadores
    ensures forall k :: 0 <= k < |r| ==> r[k].golesMarcados > UmbralGoles
    ensures EsSubsecuencia(r, jugadores)
  {
    if jugadores == [] then []
    else
      var resto := ConMasDeCincoGoles(jugadores[1..]);
      var primero := jugadores[0];
      assert jugadores == [primero] + jugadores[1..];
      if primero.golesMarcados > UmbralGoles then [primero] + resto
      else
        assert EsSubsecuencia(resto, jugadores) by {
          SubsecuenciaDeLaCola(resto, jugadores);
        }
        resto
  }

  /** No qualifying player is lost: the result holds every occurrence of
      every player with more than five goals, and nothing else. */
  lemma {:induction false} ConMasDeCincoGolesCompleto(jugadores: seq<Jugador>)
    ensures multiset(ConMasDeCincoGoles(jugadores)) <= multiset(jugadores)
    ensures forall j :: j in jugadores && j.golesMarcados > UmbralGoles ==>
              multiset(ConMasDeCincoGoles(jugadores))[j] == multiset(jugadores)[j]
  {
    if jugadores != [] {
      var primero, cola := jugadores[0], jugadores[1..];
      ConMasDeCincoGolesCompleto(cola);
      assert jugadores == [primero] + cola;
      assert multiset(jugadores) == multiset{primero} + multiset(cola);
      var resto := ConMasDeCincoGoles(cola);
      if primero.golesMarcados > UmbralGoles {
        assert ConMasDeCincoGoles(jugadores) == [primero] + resto;
        assert multiset([primero] + resto) == multiset{primero} + multiset(resto);
      }
    }
  }

  /** Adding an element in front of the sequence searched keeps a
      subsequence a subsequence. */
  lemma {:induction false} SubsecuenciaDeLaCola(r: seq<Jugador>, s: seq<Jugador>)
    requires s != [] && EsSubsecuencia(r, s[1..])
    ensures EsSubsecuencia(r, s)
    decreases |r| + |s|, 1
  {
    if r != [] && r[0] == s[0] {
      SinPrimero(r, s[1..]);
    }
  }

  /** Leaving out the first element of a subsequence keeps a subsequence. */
  lemma {:induction false} SinPrimero(r: seq<Jugador>, t: seq<Jugador>)
    requires r != [] && EsSubsecuencia(r, t)
    ensures EsSubsecuencia(r[1..], t)
    decreases |r| + |t|, 0
  {
    if r[0] == t[0] {
      if r[1..] != [] {
        SubsecuenciaDeLaCola(r[1..], t);
      }
    } else {
      SinPrimero(r, t[1..]);
      SubsecuenciaDeLaCola(r[1..], t);
    }
  }

  /** A second finalization of the same match is not prevented: it adds
      each player's tally, and its matches, all over again. */
  method FinalizarDosVeces(p: Partido)
    modifies p.Convocados()
    ensures forall j :: j in p.equipoA || j in p.equipoB ==>
              j.golesMarcados == old(j.golesMarcados) +
                2 * ((multiset(p.equipoA)[j] + multiset(p.equipoB)[j]) * GolesDe(p.golesPorJugador, j)) &&
              j.partidosJugados == old(j.partidosJugados) + 2 * (multiset(p.equipoA)[j] + multiset(p.equipoB)[j])
    ensures p.PlantillasBienFormadas() ==>
              forall j :: j in p.equipoA || j in p.equipoB ==>
                j.golesMarcados == old(j.golesMarcados) + 2 * GolesDe(p.golesPorJugador, j) &&
                j.partidosJugados == old(j.partidosJugados) + 2
  {
    p.FinalizarPartido();
    p.FinalizarPartido();
  }
}
