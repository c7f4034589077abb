/** The log records that graph_log.py and get_pgns.py consume, the `"HEX#data"` line each
    of them emits for a record, the string keys `str(sa)`, `str(da)` and `str(pgn)`, and the
    one shape all three of their loops share: keep the records a test accepts, in input
    order. */
module Messages {
  import opened Wrappers
  import opened Bits
  import opened Text
  import opened J1939Id

  /** The `J1939ID` objects `get_msgs` builds: construction succeeded, so the bit array has
      the width of its frame format. */
  type ValidId = s: IdState | WellFormed(s) witness IdState(Zeros(CBFF_BITS), true)

  /** One entry of a candump log, `(time, channel, can_id, data)`. The grouping and the
      filter read only the identifier and the data, so time and channel are not kept. */
  datatype Message = Message(id: ValidId, data: string)

  /** `f"{can_id.hex}#{data}"`. */
  function Line(m: Message): string
  {
    Hex(m.id) + "#" + m.data
  }

  /** `f` applied to each element, in order. */
  function MapSeq<T, U>(xs: seq<T>, f: T -> U): (r: seq<U>)
    ensures |r| == |xs|
    ensures forall i | 0 <= i < |xs| :: r[i] == f(xs[i])
  {
    seq(|xs|, i requires 0 <= i < |xs| => f(xs[i]))
  }

  /** `str(x)` for a getter that gives an int or `None`. */
  function OptionKey(o: Option<nat>): (r: string)
    ensures o.None? <==> r == "None"
    ensures o.Some? ==> AllDecimal(r) && DecimalValue(r) == o.value
  {
    match o
    case None => "None"
    case Some(n) => NatToDecimal(n)
  }

  /** `str(can_id.sa)`. */
  function SaStr(m: Message): string
  {
    NatToDecimal(Sa(m.id))
  }

  /** `str(can_id.da)`: `"None"` for a CBFF identifier. */
  function DaStr(m: Message): string
  {
    OptionKey(Da(m.id))
  }

  /** `str(can_id.pgn)`: `"None"` for a CBFF identifier. */
  function PgnStr(m: Message): string
  {
    OptionKey(Pgn(m.id))
  }

  /** `can_id.pgn == 60928`: the record carries an address-claim NAME. */
  predicate IsName(m: Message)
  {
    Pgn(m.id) == Some(NAME_PGN)
  }

  const NAME_PGN: nat := 60928

  /** The elements of `xs` that `keep` accepts, in order: the shape of every loop in
      graph_log.py and get_pgns.py that appends or yields a record's line. */
  function Select<T>(xs: seq<T>, keep: T -> bool): (r: seq<T>)
    ensures |r| <= |xs|
    ensures forall i | 0 <= i < |r| :: r[i] in xs && keep(r[i])
  {
    if xs == [] then []
    else
      var last := xs[|xs| - 1];
      Select(xs[..|xs| - 1], keep) + (if keep(last) then [last] else [])
  }

  // ---------------------------------------------------------------------------
  // Lemmas

  /** Distinct values give distinct keys, and `"None"` is the key of `None` alone. */
  lemma OptionKeyInjective(a: Option<nat>, b: Option<nat>)
    ensures OptionKey(a) == OptionKey(b) <==> a == b
  {
    if a.Some? && b.Some? {
      DecimalInjective(a.value, b.value);
    }
  }

  /** A CBFF record has no destination and no PGN: both keys are `"None"`, and it is never a
      NAME record. */
  lemma CbffKeys(m: Message)
    requires m.id.cbff
    ensures DaStr(m) == "None" && PgnStr(m) == "None" && !IsName(m)
  {
  }

  lemma MapSeqAppend<T, U>(a: seq<T>, b: seq<T>, f: T -> U)
    ensures MapSeq(a + b, f) == MapSeq(a, f) + MapSeq(b, f)
  {
  }

  /** Selecting from two runs one after the other gives the elements of the first run
      first: the order of the input is kept. */
  lemma {:induction false} SelectAppend<T>(a: seq<T>, b: seq<T>, keep: T -> bool)
    ensures Select(a + b, keep) == Select(a, keep) + Select(b, keep)
    decreases |b|
  {
    if b != [] {
      var b', last := b[..|b| - 1], b[|b| - 1];
      var tail := if keep(last) then [last] else [];
      assert (a + b)[..|a + b| - 1] == a + b';
      assert (a + b)[|a + b| - 1] == last;
      SelectAppend(a, b', keep);
    } else {
      assert a + b == a;
    }
  }

  /** Adding one element at the end adds it to the selection exactly when it is accepted. */
  lemma SelectSnoc<T>(xs: seq<T>, x: T, keep: T -> bool)
    ensures Select(xs + [x], keep) == Select(xs, keep) + (if keep(x) then [x] else [])
  {
    assert (xs + [x])[..|xs|] == xs;
  }

  /** An element is selected exactly when it is in the input and accepted. */
  lemma {:induction false} SelectMembership<T>(xs: seq<T>, keep: T -> bool, x: T)
    ensures x in Select(xs, keep) <==> x in xs && keep(x)
  {
    if xs != [] {
      var prefix, last := xs[..|xs| - 1], xs[|xs| - 1];
      assert xs == prefix + [last];
      SelectMembership(prefix, keep, x);
    }
  }

  /** When `keep` accepts no element, nothing is selected. */
  lemma {:induction false} SelectNone<T>(xs: seq<T>, keep: T -> bool)
    requires forall i | 0 <= i < |xs| :: !keep(xs[i])
    ensures Select(xs, keep) == []
  {
    if xs != [] {
      SelectNone(xs[..|xs| - 1], keep);
    }
  }

  /** When `keep` accepts every element, the whole input is selected. */
  lemma {:induction false} SelectAll<T>(xs: seq<T>, keep: T -> bool)
    requires forall i | 0 <= i < |xs| :: keep(xs[i])
    ensures Select(xs, keep) == xs
  {
    if xs != [] {
      var prefix := xs[..|xs| - 1];
      SelectAll(prefix, keep);
      assert prefix + [xs[|xs| - 1]] == xs;
    }
  }

  /** The test that accepts what both `p` and `q` accept. */
  function Both<T>(p: T -> bool, q: T -> bool): T -> bool
  {
    x => p(x) && q(x)
  }

  /** Selecting twice is selecting once with both tests. */
  lemma {:induction false} SelectSelect<T>(xs: seq<T>, p: T -> bool, q: T -> bool)
    ensures Select(Select(xs, p), q) == Select(xs, Both(p, q))
  {
    if xs != [] {
      var prefix, last := xs[..|xs| - 1], xs[|xs| - 1];
      SelectSelect(prefix, p, q);
      assert Both(p, q)(last) == (p(last) && q(last));
      if p(last) {
        SelectSnoc(Select(prefix, p), last, q);
      } else {
        assert Select(xs, p) == Select(prefix, p) + [];
        assert Select(prefix, p) + [] == Select(prefix, p);
      }
    }
  }

  /** One more element of a prefix. */
  lemma PrefixSnoc<T>(xs: seq<T>, i: nat)
    requires i < |xs|
    ensures xs[..i + 1] == xs[..i] + [xs[i]]
  {
  }

  /** A key with a leading zero followed by more characters, such as `"060928"`, is the key
      of no value. */
  lemma LeadingZeroIsNoKey(key: string, o: Option<nat>)
    requires |key| >= 2 && key[0] == '0'
    ensures OptionKey(o) != key
  {
  }

  /** A value comes out of the selection mapped by `f` exactly when it is `f` of an accepted
      element. */
  lemma MapSelectMembership<T, U>(xs: seq<T>, keep: T -> bool, f: T -> U, y: U)
    ensures y in MapSeq(Select(xs, keep), f) <==> exists i | 0 <= i < |xs| :: keep(xs[i]) && f(xs[i]) == y
  {
    var selected := Select(xs, keep);
    if y in MapSeq(selected, f) {
      var j :| 0 <= j < |selected| && f(selected[j]) == y;
      var i :| 0 <= i < |xs| && xs[i] == selected[j];
    }
    if exists i | 0 <= i < |xs| :: keep(xs[i]) && f(xs[i]) == y {
      var i :| 0 <= i < |xs| && keep(xs[i]) && f(xs[i]) == y;
      SelectMembership(xs, keep, xs[i]);
      var j :| 0 <= j < |selected| && selected[j] == xs[i];
      assert MapSeq(selected, f)[j] == y;
    }
  }
}
