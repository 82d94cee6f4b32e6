/** Vocabulary shared by every module: bytes, the two readings of the source, and small sequence facts. */
module Common {
  newtype byte = b: int | 0 <= b < 256

  datatype Option<+T> = None | Some(value: T)

  /** The two readings of the places where a statement of the repository and the surrounding
      code disagree. `AsWritten` follows the statement exactly as it stands in the file;
      `AsIntended` follows what the neighbouring lines and comments assume. */
  datatype Form = AsWritten | AsIntended

  function Min(a: nat, b: nat): nat {
    if a <= b then a else b
  }

  function Max(a: nat, b: nat): nat {
    if a <= b then b else a
  }

  function Zeros(n: nat): (z: seq<byte>)
    ensures |z| == n
  {
    seq(n, _ => 0 as byte)
  }

  /** Answer of `write` on the socket. */
  datatype Answer = Wrote(n: nat) | WouldBlock | PeerGone | OtherError

  /** The kernel takes at most what it is offered. */
  function TakenBy(ans: Answer, len: nat): (n: nat)
    ensures n <= len
  {
    if ans.Wrote? then Min(ans.n, len) else 0
  }

  /** Concatenation is associative. */
  lemma Regroup<T>(a: seq<T>, b: seq<T>, c: seq<T>)
    ensures a + (b + c) == (a + b) + c
  {
  }

  /** `sub` can be obtained from `full` by deleting elements, keeping the order. */
  ghost predicate Subsequence<T>(sub: seq<T>, full: seq<T>)
    decreases |full|
  {
    || sub == []
    || (full != [] && (|| Subsequence(sub, full[..|full| - 1])
                       || (sub[|sub| - 1] == full[|full| - 1] && Subsequence(sub[..|sub| - 1], full[..|full| - 1]))))
  }

  lemma SubsequenceSkip<T>(sub: seq<T>, full: seq<T>, x: T)
    requires Subsequence(sub, full)
    ensures Subsequence(sub, full + [x])
  {
    assert (full + [x])[..|full|] == full;
  }

  lemma SubsequenceKeep<T>(sub: seq<T>, full: seq<T>, x: T)
    requires Subsequence(sub, full)
    ensures Subsequence(sub + [x], full + [x])
  {
    assert (full + [x])[..|full|] == full;
    assert (sub + [x])[..|sub|] == sub;
  }

  /** Extending the full sequence on the right keeps every subsequence. */
  lemma {:induction false} SubsequenceExtend<T>(sub: seq<T>, full: seq<T>, more: seq<T>)
    requires Subsequence(sub, full)
    ensures Subsequence(sub, full + more)
    decreases |more|
  {
    if more == [] {
      assert full + more == full;
    } else {
      var init := more[..|more| - 1];
      SubsequenceExtend(sub, full, init);
      SubsequenceSkip(sub, full + init, more[|more| - 1]);
      assert (full + init) + [more[|more| - 1]] == full + more;
    }
  }
}
