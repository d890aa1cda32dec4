/**
 * The analyzer processes of TP1/sistema_biometrico.py: each keeps a moving
 * window over one reading of the generated samples and publishes the
 * window's mean and deviation for every sample. A pipe becomes the sequence
 * of samples it delivers; numpy's mean becomes the exact average and
 * numpy's standard deviation a parameter.
 */
module Biometrics {

  /** `ConfiguracionGlobal.TOTAL_MUESTRAS` and `VENTANA_MOVIL`. */
  const TotalSamples: nat := 60
  const WindowSize: nat := 30

  /** One generated sample: timestamp, heart rate, systolic and diastolic pressure, oxygen. */
  datatype Sample = Sample(timestamp: string, frecuencia: real, sistolica: real, diastolica: real, oxigeno: real)

  datatype Kind = Frecuencia | Presion | Oxigeno

  /** The `tipo` each analyzer writes into its results. */
  function KindName(k: Kind): string {
    match k
    case Frecuencia => "frecuencia"
    case Presion => "presion"
    case Oxigeno => "oxigeno"
  }

  /** The reading an analyzer takes from a sample; the pressure analyzer takes the systolic value. */
  function Reading(k: Kind, s: Sample): real {
    match k
    case Frecuencia => s.frecuencia
    case Presion => s.sistolica
    case Oxigeno => s.oxigeno
  }

  /** The readings an analyzer takes from a run of samples, in arrival order. */
  function Readings(k: Kind, samples: seq<Sample>): (r: seq<real>)
    ensures |r| == |samples|
    decreases |samples|
  {
    if samples == [] then []
    else Readings(k, samples[..|samples| - 1]) + [Reading(k, samples[|samples| - 1])]
  }

  lemma {:induction false} ReadingsIndex(k: Kind, samples: seq<Sample>)
    ensures forall i | 0 <= i < |samples| :: Readings(k, samples)[i] == Reading(k, samples[i])
    decreases |samples|
  {
    if samples != [] {
      var init := samples[..|samples| - 1];
      ReadingsIndex(k, init);
      assert forall i | 0 <= i < |init| :: init[i] == samples[i];
    }
  }

  // ---------------------------------------------------------------------------
  // The moving window
  // ---------------------------------------------------------------------------

  /** The last `n` values of `s`, in their order (all of `s` when it is shorter). */
  function LastN(s: seq<real>, n: nat): (r: seq<real>)
    ensures |r| == if |s| < n then |s| else n
    ensures r == s[|s| - |r|..]
  {
    if |s| <= n then s else s[|s| - n..]
  }

  /** Keeping the last `n` values after each arrival keeps the last `n` of all arrivals. */
  lemma LastNAppend(s: seq<real>, x: real, n: nat)
    requires n > 0
    ensures LastN(LastN(s, n) + [x], n) == LastN(s + [x], n)
  {
    var w := LastN(s, n);
    assert (s + [x])[|s| + 1 - |LastN(s + [x], n)|..] == s[|s| + 1 - |LastN(s + [x], n)|..] + [x];
    assert (w + [x])[|w| + 1 - |LastN(w + [x], n)|..] == w[|w| + 1 - |LastN(w + [x], n)|..] + [x];
  }

  /** `deque(maxlen=...)`: appending to a full window drops its oldest value. */
  class MovingWindow {
    const maxlen: nat
    var items: seq<real>

    predicate Valid()
      reads this
    {
      maxlen > 0 && |items| <= maxlen
    }

    constructor (maxlen: nat)
      requires maxlen > 0
      ensures this.maxlen == maxlen && items == [] && Valid()
    {
      this.maxlen := maxlen;
      items := [];
    }

    /** `append(x)`. */
    method Append(x: real)
      requires Valid()
      modifies this
      ensures Valid()
      ensures items == LastN(old(items) + [x], maxlen)
    {
      items := items + [x];
      if |items| > maxlen {
        items := items[1..];
      }
    }
  }

  // ---------------------------------------------------------------------------
  // Statistics
  // ---------------------------------------------------------------------------

  function Sum(s: seq<real>): real
    decreases |s|
  {
    if s == [] then 0.0 else s[0] + Sum(s[1..])
  }

  /** `np.mean`, as the exact average. */
  function Mean(s: seq<real>): real
    requires |s| > 0
  {
    Sum(s) / (|s| as real)
  }

  lemma {:induction false} SumBounds(s: seq<real>, lo: real, hi: real)
    requires forall i | 0 <= i < |s| :: lo <= s[i] <= hi
    ensures lo * (|s| as real) <= Sum(s) <= hi * (|s| as real)
    decreases |s|
  {
    if s != [] {
      SumBounds(s[1..], lo, hi);
      assert lo * (|s| as real) == lo + lo * ((|s| - 1) as real);
      assert hi * (|s| as real) == hi + hi * ((|s| - 1) as real);
    }
  }

  /** The mean of values between two bounds lies between them. */
  lemma MeanWithin(s: seq<real>, lo: real, hi: real)
    requires |s| > 0
    requires forall i | 0 <= i < |s| :: lo <= s[i] <= hi
    ensures lo <= Mean(s) <= hi
  {
    SumBounds(s, lo, hi);
    var n := |s| as real;
    assert Mean(s) * n == Sum(s);
  }

  /** `calcular_desviacion_estandar`: zero for fewer than two values, otherwise numpy's deviation. */
  function StdDev(values: seq<real>, npStd: seq<real> -> real): (r: real)
    ensures |values| < 2 ==> r == 0.0
    ensures |values| >= 2 ==> r == npStd(values)
  {
    if |values| < 2 then 0.0 else npStd(values)
  }

  // ---------------------------------------------------------------------------
  // The analyzers
  // ---------------------------------------------------------------------------

  /** One result an analyzer puts on the queue. */
  datatype Measurement = Measurement(tipo: string, timestamp: string, media: real, desv: real)

  /** The window an analyzer holds after its first `n` samples. */
  function WindowAfter(k: Kind, received: seq<Sample>, n: nat): seq<real>
    requires n <= |received|
  {
    LastN(Readings(k, received[..n]), WindowSize)
  }

  /** One more sample moves the window exactly as `append` on a bounded deque does. */
  lemma WindowStep(k: Kind, received: seq<Sample>, n: nat)
    requires n < |received|
    ensures WindowAfter(k, received, n + 1) == LastN(WindowAfter(k, received, n) + [Reading(k, received[n])], WindowSize)
  {
    assert received[..n + 1][..n] == received[..n];
    LastNAppend(Readings(k, received[..n]), Reading(k, received[n]), WindowSize);
  }

  /**
   * The result published for sample `j`: the analyzer's kind, the sample's
   * timestamp, and the mean and deviation of the window after that sample,
   * which holds the latest readings, at most `VENTANA_MOVIL` of them.
   */
  function Published(k: Kind, received: seq<Sample>, j: nat, npStd: seq<real> -> real): Measurement
    requires j < |received|
  {
    var w := WindowAfter(k, received, j + 1);
    Measurement(KindName(k), received[j].timestamp, Mean(w), StdDev(w, npStd))
  }

  /** One iteration of an analyzer: take sample `n`'s reading into the window and compute the result. */
  method AnalyzeSample(ventana: MovingWindow, kind: Kind, received: seq<Sample>, n: nat, npStd: seq<real> -> real)
    returns (resultado: Measurement)
    requires n < |received|
    requires ventana.Valid() && ventana.maxlen == WindowSize
    requires ventana.items == WindowAfter(kind, received, n)
    modifies ventana
    ensures ventana.Valid() && ventana.maxlen == WindowSize
    ensures ventana.items == WindowAfter(kind, received, n + 1)
    ensures resultado == Published(kind, received, n, npStd)
  {
    var datos := received[n];
    WindowStep(kind, received, n);
    ventana.Append(Reading(kind, datos));
    var media := Mean(ventana.items);
    var desv := StdDev(ventana.items, npStd);
    resultado := Measurement(KindName(kind), datos.timestamp, media, desv);
  }

  /** `f(0), ..., f(n - 1)`, built the way a loop appends one value per step. */
  function Tabulate<T>(f: nat --> T, n: nat): (r: seq<T>)
    requires forall j: nat | j < n :: f.requires(j)
    ensures |r| == n
    decreases n
  {
    if n == 0 then [] else Tabulate(f, n - 1) + [f(n - 1)]
  }

  lemma {:induction false} TabulateIndex<T>(f: nat --> T, n: nat)
    requires forall j: nat | j < n :: f.requires(j)
    ensures forall j: nat | j < n :: Tabulate(f, n)[j] == f(j)
    decreases n
  {
    if n > 0 {
      TabulateIndex(f, n - 1);
    }
  }

  /** The result published for each sample an analyzer receives. */
  function PublishedAt(k: Kind, received: seq<Sample>, npStd: seq<real> -> real): nat --> Measurement {
    (j: nat) requires j < |received| => Published(k, received, j, npStd)
  }

  /** Publishing the result for sample `n` extends the results for the samples before it. */
  lemma PublishedStep(k: Kind, received: seq<Sample>, npStd: seq<real> -> real, n: nat, out: seq<Measurement>)
    requires n < |received| && out == Tabulate(PublishedAt(k, received, npStd), n)
    ensures out + [Published(k, received, n, npStd)] == Tabulate(PublishedAt(k, received, npStd), n + 1)
  {
  }

  /** The results for the first `n` samples are, one by one, the results published for them. */
  lemma PublishedPrefix(k: Kind, received: seq<Sample>, npStd: seq<real> -> real, n: nat)
    requires n <= |received|
    ensures forall j | 0 <= j < n :: Tabulate(PublishedAt(k, received, npStd), n)[j] == Published(k, received, j, npStd)
  {
    TabulateIndex(PublishedAt(k, received, npStd), n);
  }

  /**
   * One analyzer process. `received` is what its pipe delivers before the
   * main process closes it (`EOFError` ends the loop early); at most
   * `TOTAL_MUESTRAS` samples are read, and one result is published per sample.
   */
  method Analyzer(kind: Kind, received: seq<Sample>, npStd: seq<real> -> real) returns (out: seq<Measurement>)
    ensures |out| == if |received| < TotalSamples then |received| else TotalSamples
    ensures forall j | 0 <= j < |out| :: out[j] == Published(kind, received, j, npStd)
  {
    var ventana := new MovingWindow(WindowSize);
    out := [];
    var n := 0;
    while n < TotalSamples && n < |received|
      invariant 0 <= n <= |received| && n <= TotalSamples
      invariant ventana.Valid() && ventana.maxlen == WindowSize
      invariant ventana.items == WindowAfter(kind, received, n)
      invariant out == Tabulate(PublishedAt(kind, received, npStd), n)
    {
      var resultado := AnalyzeSample(ventana, kind, received, n, npStd);
      PublishedStep(kind, received, npStd, n, out);
      out := out + [resultado];
      n := n + 1;
    }
    PublishedPrefix(kind, received, npStd, n);
  }

  /** Every window mean of readings within the generator's bounds stays within them. */
  lemma {:induction false} WindowMeanWithin(kind: Kind, received: seq<Sample>, n: nat, lo: real, hi: real)
    requires 0 < n <= |received|
    requires forall i | 0 <= i < |received| :: lo <= Reading(kind, received[i]) <= hi
    ensures lo <= Mean(WindowAfter(kind, received, n)) <= hi
  {
    var w := WindowAfter(kind, received, n);
    var all := Readings(kind, received[..n]);
    ReadingsIndex(kind, received[..n]);
    assert forall i | 0 <= i < |w| :: w[i] == all[|all| - |w| + i];
    MeanWithin(w, lo, hi);
  }
}
