/**
 * The hash-chained log of TP1 and its verifier (TP1/verificar_cadena.py).
 * Each block stores the hash of its predecessor and its own hash, computed
 * over the predecessor's hash, the canonical serialisation of its data and
 * its timestamp. SHA-256 and `json.dumps(..., sort_keys=True)` are left
 * uninterpreted.
 */
module ChainVerifier {
  import opened Wrappers
  import opened Json

  /** `"0" * 64`, the predecessor hash of the first block. */
  const Genesis: string := seq(64, _ => '0')

  datatype Block = Block(timestamp: string, datos: Json, alerta: bool, prevHash: string, hash: string)

  /** The hex digest of SHA-256 over a string, and the canonical JSON text of a value. */
  datatype Hashing = Hashing(sha256: string -> string, dumps: Json -> string)

  /** `sha256(f"{prev}{json.dumps(datos, sort_keys=True)}{timestamp}")`. */
  function BlockHash(hs: Hashing, prev: string, datos: Json, timestamp: string): string {
    hs.sha256(prev + hs.dumps(datos) + timestamp)
  }

  /** A block that names `prev` as its predecessor and whose stored hash recomputes. */
  predicate Sound(hs: Hashing, b: Block, prev: string) {
    b.prevHash == prev && b.hash == BlockHash(hs, prev, b.datos, b.timestamp)
  }

  /** Every block is sound with respect to the hash before it, starting from `prev`. */
  predicate LinkedFrom(hs: Hashing, chain: seq<Block>, prev: string)
    decreases |chain|
  {
    chain == [] || (Sound(hs, chain[0], prev) && LinkedFrom(hs, chain[1..], chain[0].hash))
  }

  /** The hash block `i` must name as its predecessor. */
  function Predecessor(chain: seq<Block>, i: nat, start: string): string
    requires i <= |chain|
  {
    if i == 0 then start else chain[i - 1].hash
  }

  /** A chain is linked exactly when each block is sound with respect to the block before it. */
  lemma {:induction false} LinkedIff(hs: Hashing, chain: seq<Block>, start: string)
    ensures LinkedFrom(hs, chain, start) <==>
            forall i | 0 <= i < |chain| :: Sound(hs, chain[i], Predecessor(chain, i, start))
    decreases |chain|
  {
    if chain != [] {
      var tail := chain[1..];
      LinkedIff(hs, tail, chain[0].hash);
      assert forall i | 1 <= i < |chain| :: chain[i] == tail[i - 1] && Predecessor(chain, i, start) == Predecessor(tail, i - 1, chain[0].hash);
      if forall i | 0 <= i < |chain| :: Sound(hs, chain[i], Predecessor(chain, i, start)) {
        forall j | 0 <= j < |tail| ensures Sound(hs, tail[j], Predecessor(tail, j, chain[0].hash)) {
          assert Sound(hs, chain[j + 1], Predecessor(chain, j + 1, start));
        }
      }
      if LinkedFrom(hs, chain, start) {
        forall i | 0 <= i < |chain| ensures Sound(hs, chain[i], Predecessor(chain, i, start)) {
          if i > 0 {
            assert Sound(hs, tail[i - 1], Predecessor(tail, i - 1, chain[0].hash));
          }
        }
      }
    }
  }

  /** The hash the block after `chain` must name. */
  function LastHash(chain: seq<Block>, start: string): string {
    if chain == [] then start else chain[|chain| - 1].hash
  }

  /** Appending a block sound with respect to the last hash keeps the chain linked. */
  lemma {:induction false} LinkedAppend(hs: Hashing, chain: seq<Block>, start: string, b: Block)
    requires LinkedFrom(hs, chain, start) && Sound(hs, b, LastHash(chain, start))
    ensures LinkedFrom(hs, chain + [b], start)
    decreases |chain|
  {
    if chain == [] {
      assert [b][1..] == [];
    } else {
      assert (chain + [b])[1..] == chain[1..] + [b];
      assert LastHash(chain[1..], chain[0].hash) == LastHash(chain, start);
      LinkedAppend(hs, chain[1..], chain[0].hash, b);
    }
  }

  /** The number of leading blocks that pass the checks: where the walk stops. */
  function ValidPrefix(hs: Hashing, chain: seq<Block>, prev: string): (n: nat)
    ensures n <= |chain|
    ensures n == |chain| <==> LinkedFrom(hs, chain, prev)
    decreases |chain|
  {
    if chain == [] || !Sound(hs, chain[0], prev) then 0
    else 1 + ValidPrefix(hs, chain[1..], chain[0].hash)
  }

  /** `ValidPrefix` is the longest linked prefix: a prefix is linked exactly when it is no longer. */
  lemma {:induction false} ValidPrefixLongest(hs: Hashing, chain: seq<Block>, prev: string, k: nat)
    requires k <= |chain|
    ensures LinkedFrom(hs, chain[..k], prev) <==> k <= ValidPrefix(hs, chain, prev)
    decreases |chain|
  {
    if k > 0 {
      assert chain[..k][0] == chain[0];
      assert chain[..k][1..] == chain[1..][..k - 1];
      if Sound(hs, chain[0], prev) {
        ValidPrefixLongest(hs, chain[1..], chain[0].hash, k - 1);
      }
    }
  }

  /**
   * `verificar_cadena` on the blocks read from the file (`None` when the file
   * is missing or is not JSON): walk from the genesis hash, count the blocks
   * that pass, stop at the first that does not. Answers whether no block
   * failed, and the two counters it prints.
   */
  method VerifyChain(hs: Hashing, loaded: Option<seq<Block>>) returns (ok: bool, valid: nat, invalid: nat)
    ensures loaded.None? || loaded.value == [] ==> !ok && valid == 0 && invalid == 0
    ensures loaded.Some? && loaded.value != [] ==>
              && valid == ValidPrefix(hs, loaded.value, Genesis)
              && invalid == (if valid == |loaded.value| then 0 else 1)
    ensures valid + invalid <= (if loaded.Some? then |loaded.value| else 0) && invalid <= 1
    ensures ok <==> loaded.Some? && loaded.value != [] && LinkedFrom(hs, loaded.value, Genesis)
  {
    if loaded.None? {
      return false, 0, 0;
    }
    var blockchain := loaded.value;
    if blockchain == [] {
      return false, 0, 0;
    }
    var prev := Genesis;
    valid := 0;
    invalid := 0;
    var i := 0;
    while i < |blockchain|
      invariant 0 <= i <= |blockchain| && valid == i && invalid == 0
      invariant ValidPrefix(hs, blockchain, Genesis) == i + ValidPrefix(hs, blockchain[i..], prev)
    {
      var bloque := blockchain[i];
      assert blockchain[i..][1..] == blockchain[i + 1..];
      if bloque.prevHash != prev {
        invalid := invalid + 1;
        break;
      }
      var computed := BlockHash(hs, prev, bloque.datos, bloque.timestamp);
      if bloque.hash != computed {
        invalid := invalid + 1;
        break;
      }
      valid := valid + 1;
      prev := bloque.hash;
      i := i + 1;
    }
    ok := invalid == 0;
  }
}
