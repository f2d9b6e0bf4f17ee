/** The bounded event log (`append_log`): each line is shortened to fit the
    panel and the buffer keeps only the most recent entries. */
module EventLog {

  /** A line of this length or more is shortened. */
  const LONG_LINE: nat := 95
  /** How much of a shortened line is kept, before the ellipsis. */
  const KEPT_CHARS: nat := 92
  /** The single character "…" (U+2026) that ends a shortened line. */
  const ELLIPSIS: char := '\U{2026}'
  /** How many lines the buffer keeps. */
  const CAPACITY: nat := 200

  /** The form in which a line is stored. */
  function Truncate(line: string): (r: string)
    ensures |line| < LONG_LINE ==> r == line
    ensures |line| >= LONG_LINE ==> |r| == KEPT_CHARS + 1 && r[..KEPT_CHARS] == line[..KEPT_CHARS] && r[KEPT_CHARS] == ELLIPSIS
    ensures |r| < LONG_LINE
  {
    if |line| < LONG_LINE then line else line[..KEPT_CHARS] + [ELLIPSIS]
  }

  /** A stored line is stored again unchanged. */
  lemma TruncateIdempotent(line: string)
    ensures Truncate(Truncate(line)) == Truncate(line)
  {
  }

  /** The last `n` elements of `s`, oldest first (all of `s` when it is
      shorter): `s[-n:]` for every `n >= 1`, which covers the source's 200 and
      18.  (Python's `s[-0:]` would be all of `s`; here it is empty.) */
  function KeepLast<T>(s: seq<T>, n: nat): (r: seq<T>)
    ensures |r| == if |s| <= n then |s| else n
    ensures r == s[|s| - |r|..]
  {
    if |s| <= n then s else s[|s| - n..]
  }

  /** Taking the last `n` twice, with more appended in between, is the same
      as taking the last `n` once at the end. */
  lemma KeepLastAbsorbs<T>(s: seq<T>, t: seq<T>, n: nat)
    ensures KeepLast(KeepLast(s, n) + t, n) == KeepLast(s + t, n)
  {
    var k := KeepLast(s, n);
    if |s| > n {
      var a, b := KeepLast(k + t, n), KeepLast(s + t, n);
      assert |a| == |b|;
      forall i | 0 <= i < |a| ensures a[i] == b[i] {
        if i + |k + t| - |a| < |k| {
          assert a[i] == k[i + |k + t| - |a|];
        }
      }
    }
  }

  /** Every line as stored. */
  function TruncateAll(lines: seq<string>): (r: seq<string>)
    ensures |r| == |lines| && forall i :: 0 <= i < |lines| ==> r[i] == Truncate(lines[i])
  {
    seq(|lines|, i requires 0 <= i < |lines| => Truncate(lines[i]))
  }

  /** The buffer after `append_log` has been called on each of `lines`, in order. */
  function Appended(buffer: seq<string>, lines: seq<string>): seq<string> {
    if lines == [] then buffer
    else KeepLast(Appended(buffer, lines[..|lines| - 1]) + [Truncate(lines[|lines| - 1])], CAPACITY)
  }

  /** Appending line by line keeps exactly the last 200 of the old buffer
      followed by the stored lines, oldest first. */
  lemma {:induction false} AppendedKeepsLast(buffer: seq<string>, lines: seq<string>)
    requires |buffer| <= CAPACITY
    ensures Appended(buffer, lines) == KeepLast(buffer + TruncateAll(lines), CAPACITY)
  {
    if lines != [] {
      var init, last := lines[..|lines| - 1], lines[|lines| - 1];
      AppendedKeepsLast(buffer, init);
      KeepLastAbsorbs(buffer + TruncateAll(init), [Truncate(last)], CAPACITY);
      assert TruncateAll(lines) == TruncateAll(init) + [Truncate(last)];
      assert buffer + TruncateAll(init) + [Truncate(last)] == buffer + TruncateAll(lines);
    }
  }

  /** Appending two batches one after the other is appending their concatenation. */
  lemma {:induction false} AppendedAppend(buffer: seq<string>, xs: seq<string>, ys: seq<string>)
    ensures Appended(Appended(buffer, xs), ys) == Appended(buffer, xs + ys)
  {
    if ys != [] {
      var init, last := ys[..|ys| - 1], ys[|ys| - 1];
      AppendedAppend(buffer, xs, init);
      assert (xs + ys)[..|xs + ys| - 1] == xs + init;
      assert (xs + ys)[|xs + ys| - 1] == last;
    } else {
      assert xs + ys == xs;
    }
  }

  /** The buffer never holds more than 200 lines. */
  lemma {:induction false} AppendedBounded(buffer: seq<string>, lines: seq<string>)
    requires |buffer| <= CAPACITY
    ensures |Appended(buffer, lines)| <= CAPACITY
    ensures |Appended(buffer, lines)| == if |buffer| + |lines| <= CAPACITY then |buffer| + |lines| else CAPACITY
  {
    AppendedKeepsLast(buffer, lines);
  }

  /** After 250 appends to an empty buffer it holds exactly the last 200
      lines, as stored, oldest first. */
  lemma {:induction false} AfterManyAppends(lines: seq<string>)
    requires |lines| == 250
    ensures Appended([], lines) == TruncateAll(lines[50..])
  {
    AppendedKeepsLast([], lines);
    var all := TruncateAll(lines);
    assert [] + all == all;
    assert KeepLast(all, CAPACITY) == all[50..];
    assert all[50..] == TruncateAll(lines[50..]);
  }
}
