/** Key ranges of etcd requests: the "+1" range end that stands for "every key with this prefix". */
module KeyRange {
  import opened Common

  type Byte = b: nat | b < 256
  type Bytes = seq<Byte>

  /** The members of a request object; an empty member is left out. */
  datatype Range = Range(key: Option<Bytes>, rangeEnd: Option<Bytes>)

  /** "+1" as bytes. */
  const PLUS_ONE: Bytes := [0x2b, 0x31]

  /** The key with its last byte below 0xff incremented and the rest cut off. */
  function Successor(key: Bytes): Bytes {
    if key == [] then []
    else if key[|key| - 1] == 0xff then Successor(key[..|key| - 1])
    else key[..|key| - 1] + [key[|key| - 1] + 1]
  }

  function Field(b: Bytes): Option<Bytes> {
    if b == [] then None else Some(b)
  }

  method PackKeyRange(key: Bytes, rangeEnd: Bytes) returns (r: Range)
    ensures r == Range(Field(key), Field(if rangeEnd == PLUS_ONE then Successor(key) else rangeEnd))
  {
    var end := rangeEnd;
    if rangeEnd == PLUS_ONE {
      end := key;
      var needPlus := true;
      while end != [] && needPlus
        invariant if needPlus then Successor(key) == Successor(end) else Successor(key) == end
        decreases needPlus, |end|
      {
        var c := end[|end| - 1];
        if c == 0xff {
          end := end[..|end| - 1];
        } else {
          end := end[..|end| - 1] + [c + 1];
          needPlus := false;
        }
      }
      if end == [] && needPlus && key != [] {
        end := []; // a string literal that holds only a terminator is empty
      }
    }
    var k, e := None, None;
    if key != [] {
      k := Some(key);
    }
    if end != [] {
      e := Some(end);
    }
    return Range(k, e);
  }

  // ---------------------------------------------------------------- meaning

  /** Unsigned lexicographic order. */
  predicate Less(a: Bytes, b: Bytes) {
    b != [] && (a == [] || a[0] < b[0] || (a[0] == b[0] && Less(a[1..], b[1..])))
  }

  /** The keys a request asks for: one key when there is no range end, else a half-open range. */
  predicate Asks(r: Range, k: Bytes) {
    r.key.Some? &&
    if r.rangeEnd.None? then k == r.key.value
    else (k == r.key.value || Less(r.key.value, k)) && Less(k, r.rangeEnd.value)
  }

  predicate IsPrefix(p: Bytes, k: Bytes) {
    p <= k
  }

  predicate AllFf(key: Bytes) {
    forall i :: 0 <= i < |key| ==> key[i] == 0xff
  }

  lemma {:induction false} AllFfHasNoSuccessor(key: Bytes)
    requires AllFf(key)
    ensures Successor(key) == []
    decreases |key|
  {
    if key != [] {
      AllFfHasNoSuccessor(key[..|key| - 1]);
    }
  }

  lemma {:induction false} SuccessorFromFront(key: Bytes)
    requires key != []
    ensures !AllFf(key[1..]) ==> Successor(key) == [key[0]] + Successor(key[1..])
    ensures AllFf(key[1..]) && key[0] < 0xff ==> Successor(key) == [key[0] + 1]
    decreases |key|
  {
    var n := |key| - 1;
    if n > 0 {
      var cut := key[..n];
      assert cut[1..] == key[1..][..n - 1];
      if key[n] == 0xff {
        SuccessorFromFront(cut);
        assert AllFf(key[1..]) ==> AllFf(cut[1..]);
        if !AllFf(key[1..]) {
          var i :| 0 <= i < |key[1..]| && key[1..][i] != 0xff;
          assert cut[1..][i] != 0xff;
        }
      } else {
        assert key[1..][n - 1] != 0xff;
        assert key[..n] == [key[0]] + key[1..][..n - 1];
      }
    }
  }

  /** Above a block of 0xff bytes there are only its own extensions. */
  lemma {:induction false} AboveAllFf(f: Bytes, k: Bytes)
    requires AllFf(f)
    ensures (k == f || Less(f, k)) <==> IsPrefix(f, k)
    decreases |f|
  {
    if f != [] && k != [] && k[0] == 0xff {
      AboveAllFf(f[1..], k[1..]);
      assert f == [f[0]] + f[1..] && k == [k[0]] + k[1..];
    }
  }

  lemma {:induction false} SuccessorBoundsPrefix(key: Bytes, k: Bytes)
    requires !AllFf(key)
    ensures (k == key || Less(key, k)) && Less(k, Successor(key)) <==> IsPrefix(key, k)
    decreases |key|
  {
    SuccessorFromFront(key);
    if k != [] {
      assert key == [key[0]] + key[1..] && k == [k[0]] + k[1..];
      if AllFf(key[1..]) {
        assert key[0] < 0xff;
        AboveAllFf(key[1..], k[1..]);
      } else if k[0] == key[0] {
        SuccessorBoundsPrefix(key[1..], k[1..]);
      }
    }
  }

  lemma SuccessorIsEmpty(key: Bytes)
    ensures Successor(key) == [] <==> AllFf(key)
  {
    if AllFf(key) {
      AllFfHasNoSuccessor(key);
    } else {
      SuccessorBoundsPrefix(key, key);
    }
  }

  /** A "+1" request asks for exactly the keys with the given prefix if and only if the prefix
      has a byte below 0xff; otherwise no range end is sent at all. */
  lemma PlusOneMeansPrefix(key: Bytes)
    ensures (forall k :: Asks(Range(Field(key), Field(Successor(key))), k) <==> IsPrefix(key, k)) <==> !AllFf(key)
  {
    var r := Range(Field(key), Field(Successor(key)));
    SuccessorIsEmpty(key);
    if AllFf(key) {
      assert IsPrefix(key, key + [0]) && !Asks(r, key + [0]);
    } else {
      forall k ensures Asks(r, k) <==> IsPrefix(key, k) {
        SuccessorBoundsPrefix(key, k);
      }
    }
  }
}
