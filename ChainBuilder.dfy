/**
 * The verifier process of TP1/sistema_biometrico.py (`proceso_verificador`):
 * it takes the analyzers' results from the shared queue three at a time,
 * groups them by kind, flags out-of-range means and appends one
 * hash-chained block per round. The queue becomes the sequence of results
 * in the order they leave it.
 */
module ChainBuilder {
  import opened Wrappers
  import opened Json
  import opened ChainVerifier
  import opened Biometrics

  /** `resultados`: a round's results keyed by kind; a later result of a kind replaces an earlier one. */
  function ByKind(round: seq<Measurement>): (m: map<string, Measurement>)
    decreases |round|
  {
    if round == [] then map[]
    else
      var last := round[|round| - 1];
      ByKind(round[..|round| - 1])[last.tipo := last]
  }

  /** Every result in `resultados` sits under its own kind. */
  lemma {:induction false} ByKindTipo(round: seq<Measurement>)
    ensures forall t | t in ByKind(round) :: ByKind(round)[t].tipo == t
    decreases |round|
  {
    if round != [] {
      ByKindTipo(round[..|round| - 1]);
    }
  }

  /** The keys of `resultados` are exactly the kinds that occur in the round. */
  lemma {:induction false} ByKindDomain(round: seq<Measurement>)
    ensures forall i | 0 <= i < |round| :: round[i].tipo in ByKind(round)
    ensures forall t | t in ByKind(round) :: exists i | 0 <= i < |round| :: round[i].tipo == t
    decreases |round|
  {
    if round != [] {
      var init := round[..|round| - 1];
      var last := round[|round| - 1];
      ByKindDomain(init);
      forall i | 0 <= i < |round| ensures round[i].tipo in ByKind(round) {
        if i < |init| {
          assert init[i] == round[i];
        }
      }
      forall t | t in ByKind(round) ensures exists i | 0 <= i < |round| :: round[i].tipo == t {
        if t == last.tipo {
          assert round[|round| - 1].tipo == t;
        } else {
          var i :| 0 <= i < |init| && init[i].tipo == t;
          assert round[i].tipo == t;
        }
      }
    }
  }

  /** A result that no later result of its kind follows is the one kept. */
  lemma {:induction false} ByKindLast(round: seq<Measurement>)
    ensures forall i | 0 <= i < |round| && (forall j | i < j < |round| :: round[j].tipo != round[i].tipo) ::
              round[i].tipo in ByKind(round) && ByKind(round)[round[i].tipo] == round[i]
    decreases |round|
  {
    if round != [] {
      var init := round[..|round| - 1];
      var last := round[|round| - 1];
      ByKindLast(init);
      forall i | 0 <= i < |round| && (forall j | i < j < |round| :: round[j].tipo != round[i].tipo)
        ensures round[i].tipo in ByKind(round) && ByKind(round)[round[i].tipo] == round[i]
      {
        if i < |init| {
          assert last.tipo != round[i].tipo;
          assert init[i] == round[i];
          assert forall j | i < j < |init| :: init[j] == round[j];
        }
      }
    }
  }

  /** The results of round `r`: the next three taken from the queue. */
  function Round(queue: seq<Measurement>, r: nat): seq<Measurement>
    requires 3 * r + 3 <= |queue|
  {
    queue[3 * r..3 * r + 3]
  }

  /** A round from which a block can be built: every kind is present, so no `KeyError`. */
  predicate Complete(m: map<string, Measurement>) {
    "frecuencia" in m && "presion" in m && "oxigeno" in m
  }

  /** The alert rule on the three window means. */
  predicate AlertOn(frecuencia: real, presion: real, oxigeno: real) {
    frecuencia >= 200.0 || oxigeno < 90.0 || oxigeno > 100.0 || presion >= 200.0
  }

  /** Means inside the ranges the samples are generated from never raise the alert. */
  lemma GeneratedRangesNeverAlert(frecuencia: real, presion: real, oxigeno: real)
    requires 60.0 <= frecuencia <= 180.0 && 110.0 <= presion <= 180.0 && 90.0 <= oxigeno <= 100.0
    ensures !AlertOn(frecuencia, presion, oxigeno)
  {
  }

  /** A result whose mean lies within the bounds `generar_datos_biometricos` draws its kind's reading from. */
  predicate MeanInGeneratedRange(m: Measurement) {
    && (m.tipo == "frecuencia" ==> 60.0 <= m.media <= 180.0)
    && (m.tipo == "presion" ==> 110.0 <= m.media <= 180.0)
    && (m.tipo == "oxigeno" ==> 90.0 <= m.media <= 100.0)
  }

  /** A sample as `generar_datos_biometricos` draws it. */
  predicate Generated(s: Sample) {
    60.0 <= s.frecuencia <= 180.0 && 110.0 <= s.sistolica <= 180.0 && 90.0 <= s.oxigeno <= 100.0
  }

  /** An analyzer fed generated samples publishes means within the generated bounds of its kind. */
  lemma PublishedInRange(kind: Kind, received: seq<Sample>, j: nat, npStd: seq<real> -> real)
    requires j < |received|
    requires forall i | 0 <= i < |received| :: Generated(received[i])
    ensures MeanInGeneratedRange(Published(kind, received, j, npStd))
  {
    match kind
    case Frecuencia => WindowMeanWithin(kind, received, j + 1, 60.0, 180.0);
    case Presion => WindowMeanWithin(kind, received, j + 1, 110.0, 180.0);
    case Oxigeno => WindowMeanWithin(kind, received, j + 1, 90.0, 100.0);
  }

  /** Every result kept in `resultados` is one of the round's results. */
  lemma {:induction false} ByKindFrom(round: seq<Measurement>)
    ensures forall t | t in ByKind(round) :: ByKind(round)[t] in round
    decreases |round|
  {
    if round != [] {
      var init := round[..|round| - 1];
      ByKindFrom(init);
      forall t | t in ByKind(round) ensures ByKind(round)[t] in round {
        if t != round[|round| - 1].tipo {
          var i :| 0 <= i < |init| && init[i] == ByKind(init)[t];
          assert round[i] == init[i];
        }
      }
    }
  }

  /**
   * When every result on the queue has a mean within the generated bounds,
   * no block built from it carries an alert.
   */
  lemma InRangeQueueNeverAlerts(blockchain: seq<Block>, queue: seq<Measurement>)
    requires BuiltFrom(blockchain, queue)
    requires forall i | 0 <= i < |queue| :: MeanInGeneratedRange(queue[i])
    ensures forall r | 0 <= r < |blockchain| :: !blockchain[r].alerta
  {
    forall r | 0 <= r < |blockchain| ensures !blockchain[r].alerta {
      var round := Round(queue, r);
      var m := ByKind(round);
      ByKindFrom(round);
      ByKindTipo(round);
      forall t | t in m ensures MeanInGeneratedRange(m[t]) {
        var k :| 0 <= k < |round| && round[k] == m[t];
        assert round[k] == queue[3 * r + k];
      }
      assert MeanInGeneratedRange(m["frecuencia"]) && MeanInGeneratedRange(m["presion"]) && MeanInGeneratedRange(m["oxigeno"]);
      GeneratedRangesNeverAlert(m["frecuencia"].media, m["presion"].media, m["oxigeno"].media);
    }
  }

  /** `{"media": ..., "desv": ...}` of one kind. */
  function Stats(m: Measurement): Json {
    JObj(map["media" := JNum(m.media), "desv" := JNum(m.desv)])
  }

  /** `datos_bloque`. */
  function BlockData(m: map<string, Measurement>): (r: Json)
    requires Complete(m)
    ensures r.JObj? && r.fields.Keys == {"frecuencia", "presion", "oxigeno"}
    ensures forall t | t in r.fields :: r.fields[t] == JObj(map["media" := JNum(m[t].media), "desv" := JNum(m[t].desv)])
  {
    JObj(map["frecuencia" := Stats(m["frecuencia"]), "presion" := Stats(m["presion"]),
             "oxigeno" := Stats(m["oxigeno"])])
  }

  /** The block's content fields agree with the round's results. */
  predicate Records(b: Block, m: map<string, Measurement>)
    requires Complete(m)
  {
    && b.timestamp == m["frecuencia"].timestamp
    && b.datos == BlockData(m)
    && b.alerta == AlertOn(m["frecuencia"].media, m["presion"].media, m["oxigeno"].media)
  }

  /** Block `r` of the chain was built from round `r` of the queue, which was complete. */
  predicate BuiltFrom(blockchain: seq<Block>, queue: seq<Measurement>)
  {
    forall r | 0 <= r < |blockchain| ::
      3 * r + 3 <= |queue| && Complete(ByKind(Round(queue, r))) && Records(blockchain[r], ByKind(Round(queue, r)))
  }

  /** The number of rounds, from round `r` on, that complete before the builder stops. */
  function CompletedRounds(queue: seq<Measurement>, r: nat): nat
    decreases TotalSamples - r
  {
    if r >= TotalSamples || |queue| < 3 * r + 3 || !Complete(ByKind(Round(queue, r))) then 0
    else 1 + CompletedRounds(queue, r + 1)
  }

  /** A round that completes counts one more than the rounds after it. */
  lemma CompletedStep(queue: seq<Measurement>, r: nat)
    requires r < TotalSamples && 3 * r + 3 <= |queue| && Complete(ByKind(Round(queue, r)))
    ensures CompletedRounds(queue, r) == 1 + CompletedRounds(queue, r + 1)
  {
  }

  /** The builder stops at a round that is short or missing a kind. */
  lemma CompletedStop(queue: seq<Measurement>, r: nat)
    requires r >= TotalSamples || |queue| < 3 * r + 3 || !Complete(ByKind(Round(queue, r)))
    ensures CompletedRounds(queue, r) == 0
  {
  }

  /** When every one of the rounds is complete the chain reaches `TOTAL_MUESTRAS` blocks. */
  lemma {:induction false} AllRoundsComplete(queue: seq<Measurement>, r: nat)
    requires r <= TotalSamples
    requires 3 * TotalSamples <= |queue|
    requires forall k | r <= k < TotalSamples :: Complete(ByKind(Round(queue, k)))
    ensures CompletedRounds(queue, r) == TotalSamples - r
    decreases TotalSamples - r
  {
    if r < TotalSamples {
      AllRoundsComplete(queue, r + 1);
    }
  }

  /** A round holding one result of each kind, in any order, is complete. */
  lemma OneOfEachComplete(round: seq<Measurement>)
    requires |round| == 3
    requires multiset{round[0].tipo, round[1].tipo, round[2].tipo} == multiset{"frecuencia", "presion", "oxigeno"}
    ensures Complete(ByKind(round))
  {
    ByKindDomain(round);
    assert "frecuencia" in multiset{round[0].tipo, round[1].tipo, round[2].tipo};
    assert "presion" in multiset{round[0].tipo, round[1].tipo, round[2].tipo};
    assert "oxigeno" in multiset{round[0].tipo, round[1].tipo, round[2].tipo};
  }

  /** Taking one more result keys it by its kind, over what the earlier ones gave. */
  lemma ByKindSnoc(round: seq<Measurement>, x: Measurement)
    ensures ByKind(round + [x]) == ByKind(round)[x.tipo := x]
  {
    assert (round + [x])[..|round|] == round;
  }

  lemma SliceSnoc(queue: seq<Measurement>, a: nat, j: nat)
    requires a + j < |queue|
    ensures queue[a..a + j + 1] == queue[a..a + j] + [queue[a + j]]
  {
  }

  /** The inner loop of a round: three results taken from the queue, keyed by kind. */
  method TakeRound(queue: seq<Measurement>, round: nat) returns (resultados: map<string, Measurement>)
    requires 3 * round + 3 <= |queue|
    ensures resultados == ByKind(Round(queue, round))
  {
    resultados := map[];
    for j := 0 to 3
      invariant resultados == ByKind(queue[3 * round..3 * round + j])
    {
      var resultado := queue[3 * round + j];
      SliceSnoc(queue, 3 * round, j);
      ByKindSnoc(queue[3 * round..3 * round + j], resultado);
      resultados := resultados[resultado.tipo := resultado];
    }
  }

  /**
   * The body of a round once every kind is present: the timestamp of the
   * heart-rate result, the alert flag, the data, and the hash chained to
   * the previous block's.
   */
  method NewBlock(hs: Hashing, bloqueAnteriorHash: string, resultados: map<string, Measurement>) returns (bloque: Block)
    requires Complete(resultados)
    ensures Sound(hs, bloque, bloqueAnteriorHash) && Records(bloque, resultados)
  {
    var timestamp := resultados["frecuencia"].timestamp;
    var alerta := false;
    if resultados["frecuencia"].media >= 200.0 || resultados["oxigeno"].media < 90.0 ||
       resultados["oxigeno"].media > 100.0 || resultados["presion"].media >= 200.0 {
      alerta := true;
    }
    var datosBloque := BlockData(resultados);
    var hashBloque := BlockHash(hs, bloqueAnteriorHash, datosBloque, timestamp);
    bloque := Block(timestamp, datosBloque, alerta, bloqueAnteriorHash, hashBloque);
  }

  /** A block built from the next complete round extends a chain built from the earlier ones. */
  lemma BuiltFromAppend(blockchain: seq<Block>, queue: seq<Measurement>, b: Block)
    requires BuiltFrom(blockchain, queue)
    requires 3 * |blockchain| + 3 <= |queue|
    requires Complete(ByKind(Round(queue, |blockchain|)))
    requires Records(b, ByKind(Round(queue, |blockchain|)))
    ensures BuiltFrom(blockchain + [b], queue)
  {
    var c := blockchain + [b];
    forall r | 0 <= r < |c|
      ensures 3 * r + 3 <= |queue| && Complete(ByKind(Round(queue, r))) && Records(c[r], ByKind(Round(queue, r)))
    {
      if r < |blockchain| {
        assert c[r] == blockchain[r];
      }
    }
  }

  /**
   * `proceso_verificador` on the results as they leave the queue. Rounds of
   * three are grouped by kind; a round missing a kind raises `KeyError`,
   * which ends the process, and a queue that runs dry leaves it waiting
   * until it is terminated. Either way the chain written so far is the one
   * built here. Every block links to the one before it and its hash is the
   * one `verificar_cadena` recomputes.
   */
  method BuildChain(hs: Hashing, queue: seq<Measurement>) returns (blockchain: seq<Block>)
    ensures LinkedFrom(hs, blockchain, Genesis)
    ensures |blockchain| == CompletedRounds(queue, 0) && |blockchain| <= TotalSamples
    ensures BuiltFrom(blockchain, queue)
  {
    blockchain := [];
    var bloqueAnteriorHash := Genesis;
    var round := 0;
    while round < TotalSamples
      invariant 0 <= round <= TotalSamples && |blockchain| == round
      invariant round + CompletedRounds(queue, round) == CompletedRounds(queue, 0)
      invariant LinkedFrom(hs, blockchain, Genesis) && bloqueAnteriorHash == LastHash(blockchain, Genesis)
      invariant BuiltFrom(blockchain, queue)
    {
      if |queue| < 3 * round + 3 {
        CompletedStop(queue, round);
        break;
      }
      var resultados := TakeRound(queue, round);
      if "frecuencia" !in resultados || "oxigeno" !in resultados || "presion" !in resultados {
        CompletedStop(queue, round);
        break;
      }
      var bloque := NewBlock(hs, bloqueAnteriorHash, resultados);
      CompletedStep(queue, round);
      LinkedAppend(hs, blockchain, Genesis, bloque);
      BuiltFromAppend(blockchain, queue, bloque);
      blockchain := blockchain + [bloque];
      bloqueAnteriorHash := bloque.hash;
      round := round + 1;
    }
    if round == TotalSamples {
      CompletedStop(queue, round);
    }
  }

  /**
   * The builder followed by `verificar_cadena` on the file it leaves: the
   * chain is accepted exactly when at least one round completed, so no chain
   * the builder writes is ever reported broken.
   */
  method RecordAndVerify(hs: Hashing, queue: seq<Measurement>) returns (ok: bool, valid: nat, invalid: nat)
    ensures invalid == 0
    ensures ok <==> CompletedRounds(queue, 0) > 0
    ensures valid == CompletedRounds(queue, 0)
  {
    var blockchain := BuildChain(hs, queue);
    ok, valid, invalid := VerifyChain(hs, Some(blockchain));
  }
}
