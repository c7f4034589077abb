/** graph_log.py: `seperate_by_address` sorts the lines of a log into a three-level dict
    `src_dict[str(sa)][str(da)][str(pgn)]`, and `get_names` collects the address-claim (NAME)
    lines per source address.

    The grouping is stated for any sequence of elements with a key function giving the three
    keys and a line function giving the text stored for an element; the two methods apply it
    to log records with `AddressOf` and `Line`. */
module GraphLog {
  import opened Wrappers
  import opened J1939Id
  import opened Messages

  /** The dict `seperate_by_address` returns. */
  type SrcDict = map<string, map<string, map<string, seq<string>>>>

  /** The three keys of a record: `str(sa)`, `str(da)` and `str(pgn)`. */
  datatype Address = Address(sa: string, da: string, pgn: string)

  function AddressOf(m: Message): Address
  {
    Address(SaStr(m), DaStr(m), PgnStr(m))
  }

  function At<T>(key: T -> Address, t: Address): T -> bool
  {
    x => key(x) == t
  }

  /** The list stored under the keys `t`: the lines of the elements with those keys, in
      input order. */
  function Bucket<T>(xs: seq<T>, key: T -> Address, line: T -> string, t: Address): seq<string>
  {
    MapSeq(Select(xs, At(key, t)), line)
  }

  function SaKeys<T>(xs: seq<T>, key: T -> Address): set<string>
  {
    set i | 0 <= i < |xs| :: key(xs[i]).sa
  }

  function DaKeys<T>(xs: seq<T>, key: T -> Address, sa: string): set<string>
  {
    set i | 0 <= i < |xs| && key(xs[i]).sa == sa :: key(xs[i]).da
  }

  function PgnKeys<T>(xs: seq<T>, key: T -> Address, sa: string, da: string): set<string>
  {
    set i | 0 <= i < |xs| && key(xs[i]).sa == sa && key(xs[i]).da == da :: key(xs[i]).pgn
  }

  function PgnLevel<T>(xs: seq<T>, key: T -> Address, line: T -> string, sa: string, da: string)
    : map<string, seq<string>>
  {
    map pgn | pgn in PgnKeys(xs, key, sa, da) :: Bucket(xs, key, line, Address(sa, da, pgn))
  }

  function DaLevel<T>(xs: seq<T>, key: T -> Address, line: T -> string, sa: string)
    : map<string, map<string, seq<string>>>
  {
    map da | da in DaKeys(xs, key, sa) :: PgnLevel(xs, key, line, sa, da)
  }

  /** The dict the grouping builds, described without a loop: one entry per key that some
      element has, and under each full key triple the bucket of that triple. */
  function Grouped<T>(xs: seq<T>, key: T -> Address, line: T -> string): SrcDict
  {
    map sa | sa in SaKeys(xs, key) :: DaLevel(xs, key, line, sa)
  }

  /** The body of the loop of `seperate_by_address` as a function of the dict: create the
      missing levels, then append the line. */
  function Place(d: SrcDict, t: Address, l: string): (r: SrcDict)
    ensures r.Keys == d.Keys + {t.sa}
    ensures t.da in r[t.sa] && t.pgn in r[t.sa][t.da]
  {
    var byDa := if t.sa in d then d[t.sa] else map[];
    var byPgn := if t.da in byDa then byDa[t.da] else map[];
    var lines := if t.pgn in byPgn then byPgn[t.pgn] else [];
    d[t.sa := byDa[t.da := byPgn[t.pgn := lines + [l]]]]
  }

  /** All three keys of `t` are in the dict. */
  predicate Present(d: SrcDict, t: Address)
  {
    t.sa in d && t.da in d[t.sa] && t.pgn in d[t.sa][t.da]
  }

  /** The list under the keys `t`, empty when they are absent. */
  function Lookup(d: SrcDict, t: Address): seq<string>
  {
    if Present(d, t) then d[t.sa][t.da][t.pgn] else []
  }

  /** The number of lines under all the key triples `ts`. */
  function TotalLines(d: SrcDict, ts: seq<Address>): nat
  {
    if ts == [] then 0 else TotalLines(d, ts[..|ts| - 1]) + |Lookup(d, ts[|ts| - 1])|
  }

  /** The number of elements whose keys are among `ts`, counted key triple by key triple. */
  function Count<T>(xs: seq<T>, key: T -> Address, ts: seq<Address>): nat
  {
    if ts == [] then 0 else Count(xs, key, ts[..|ts| - 1]) + |Select(xs, At(key, ts[|ts| - 1]))|
  }

  /** The key triples of the elements, each once, in order of first appearance. */
  function Addresses<T>(xs: seq<T>, key: T -> Address): (r: seq<Address>)
    ensures forall i, j | 0 <= i < j < |r| :: r[i] != r[j]
    ensures forall t :: t in r <==> exists i | 0 <= i < |xs| :: key(xs[i]) == t
  {
    if xs == [] then []
    else
      var prefix := Addresses(xs[..|xs| - 1], key);
      var t := key(xs[|xs| - 1]);
      if t in prefix then prefix else prefix + [t]
  }

  // ---------------------------------------------------------------------------
  // seperate_by_address

  /** `seperate_by_address(messages)`. */
  method SeparateByAddress(messages: seq<Message>) returns (srcDict: SrcDict)
    ensures srcDict == Grouped(messages, AddressOf, Line)
  {
    srcDict := map[];
    for i := 0 to |messages|
      invariant srcDict == Grouped(messages[..i], AddressOf, Line)
    {
      var m := messages[i];
      PrefixSnoc(messages, i);
      GroupedSnoc(messages[..i], m, AddressOf, Line);
      srcDict := AddLine(srcDict, SaStr(m), DaStr(m), PgnStr(m), Line(m));
    }
    assert messages[..|messages|] == messages;
  }

  /** One pass of the loop of `seperate_by_address`: the three `not in` checks that create a
      missing level, then the append. */
  method AddLine(srcDict: SrcDict, sa: string, da: string, pgn: string, line: string)
    returns (r: SrcDict)
    ensures r == Place(srcDict, Address(sa, da, pgn), line)
  {
    ghost var byDa := if sa in srcDict then srcDict[sa] else map[];
    ghost var byPgn := if da in byDa then byDa[da] else map[];
    ghost var lines := if pgn in byPgn then byPgn[pgn] else [];
    r := srcDict;
    if sa !in r {
      r := r[sa := map[]];
    }
    assert r == srcDict[sa := byDa];
    if da !in r[sa] {
      r := r[sa := r[sa][da := map[]]];
    } else {
      assert byDa[da := byPgn] == byDa;
    }
    assert r == srcDict[sa := byDa[da := byPgn]];
    if pgn !in r[sa][da] {
      r := r[sa := r[sa][da := r[sa][da][pgn := []]]];
      assert byDa[da := byPgn][da := byPgn[pgn := []]] == byDa[da := byPgn[pgn := []]];
    } else {
      assert byPgn[pgn := lines] == byPgn;
    }
    assert r == srcDict[sa := byDa[da := byPgn[pgn := lines]]];
    r := r[sa := r[sa][da := r[sa][da][pgn := r[sa][da][pgn] + [line]]]];
    assert byPgn[pgn := lines][pgn := lines + [line]] == byPgn[pgn := lines + [line]];
    assert byDa[da := byPgn[pgn := lines]][da := byPgn[pgn := lines + [line]]]
        == byDa[da := byPgn[pgn := lines + [line]]];
  }

  // ---------------------------------------------------------------------------
  // Lemmas about the grouping

  lemma BucketSnoc<T>(xs: seq<T>, x: T, key: T -> Address, line: T -> string, t: Address)
    ensures Bucket(xs + [x], key, line, t)
         == Bucket(xs, key, line, t) + (if key(x) == t then [line(x)] else [])
  {
    SelectSnoc(xs, x, At(key, t));
    MapSeqAppend(Select(xs, At(key, t)), if key(x) == t then [x] else [], line);
  }

  /** Keys no element has hold nothing: an absent level is an empty one. */
  lemma AbsentLevels<T>(xs: seq<T>, key: T -> Address, line: T -> string, t: Address)
    ensures t.sa !in SaKeys(xs, key) ==> DaLevel(xs, key, line, t.sa) == map[]
    ensures t.da !in DaKeys(xs, key, t.sa) ==> PgnLevel(xs, key, line, t.sa, t.da) == map[]
    ensures t.pgn !in PgnKeys(xs, key, t.sa, t.da) ==> Bucket(xs, key, line, t) == []
  {
    if t.pgn !in PgnKeys(xs, key, t.sa, t.da) {
      SelectNone(xs, At(key, t));
    }
  }

  lemma PgnLevelSnoc<T>(xs: seq<T>, x: T, key: T -> Address, line: T -> string, sa: string, da: string)
    ensures PgnLevel(xs + [x], key, line, sa, da)
         == if key(x).sa == sa && key(x).da == da
            then PgnLevel(xs, key, line, sa, da)[key(x).pgn := Bucket(xs, key, line, key(x)) + [line(x)]]
            else PgnLevel(xs, key, line, sa, da)
  {
    if key(x).sa == sa && key(x).da == da {
      PgnLevelSnocHit(xs, x, key, line, sa, da);
    } else {
      PgnLevelSnocMiss(xs, x, key, line, sa, da);
    }
  }

  /** An element with other sa or da keys leaves the level of (sa, da) alone. */
  lemma PgnLevelSnocMiss<T>(xs: seq<T>, x: T, key: T -> Address, line: T -> string, sa: string, da: string)
    requires key(x).sa != sa || key(x).da != da
    ensures PgnLevel(xs + [x], key, line, sa, da) == PgnLevel(xs, key, line, sa, da)
  {
    var before, after := PgnLevel(xs, key, line, sa, da), PgnLevel(xs + [x], key, line, sa, da);
    assert after.Keys == before.Keys by {
      KeysSnoc(xs, x, key, sa, da);
    }
    forall pgn | pgn in after
      ensures after[pgn] == before[pgn]
    {
      BucketAt(xs + [x], key, line, sa, da, pgn);
      BucketAt(xs, key, line, sa, da, pgn);
      BucketSnoc(xs, x, key, line, Address(sa, da, pgn));
    }
    MapExtensional(after, before);
  }

  /** An element with the sa and da keys appends its line under its pgn key. */
  lemma PgnLevelSnocHit<T>(xs: seq<T>, x: T, key: T -> Address, line: T -> string, sa: string, da: string)
    requires key(x).sa == sa && key(x).da == da
    ensures PgnLevel(xs + [x], key, line, sa, da)
         == PgnLevel(xs, key, line, sa, da)[key(x).pgn := Bucket(xs, key, line, key(x)) + [line(x)]]
  {
    var t := key(x);
    var before, after := PgnLevel(xs, key, line, sa, da), PgnLevel(xs + [x], key, line, sa, da);
    var expected := before[t.pgn := Bucket(xs, key, line, t) + [line(x)]];
    assert after.Keys == expected.Keys by {
      KeysSnoc(xs, x, key, sa, da);
    }
    forall pgn | pgn in after
      ensures after[pgn] == expected[pgn]
    {
      BucketAt(xs + [x], key, line, sa, da, pgn);
      BucketSnoc(xs, x, key, line, Address(sa, da, pgn));
      if pgn != t.pgn {
        BucketAt(xs, key, line, sa, da, pgn);
      }
    }
    MapExtensional(after, expected);
  }

  /** Under a pgn key of the level of (sa, da) lies the bucket of (sa, da, pgn). */
  lemma BucketAt<T>(xs: seq<T>, key: T -> Address, line: T -> string, sa: string, da: string, pgn: string)
    requires pgn in PgnLevel(xs, key, line, sa, da)
    ensures PgnLevel(xs, key, line, sa, da)[pgn] == Bucket(xs, key, line, Address(sa, da, pgn))
  {
  }

  lemma MapExtensional<K, V>(a: map<K, V>, b: map<K, V>)
    requires a.Keys == b.Keys
    requires forall k | k in a :: a[k] == b[k]
    ensures a == b
  {
  }

  /** One more element adds its keys, and no other, to each level's key set. */
  lemma KeysSnoc<T>(xs: seq<T>, x: T, key: T -> Address, sa: string, da: string)
    ensures SaKeys(xs + [x], key) == SaKeys(xs, key) + {key(x).sa}
    ensures DaKeys(xs + [x], key, sa) == DaKeys(xs, key, sa) + (if key(x).sa == sa then {key(x).da} else {})
    ensures PgnKeys(xs + [x], key, sa, da)
         == PgnKeys(xs, key, sa, da) + (if key(x).sa == sa && key(x).da == da then {key(x).pgn} else {})
  {
    var ys := xs + [x];
    assert forall i | 0 <= i < |xs| :: ys[i] == xs[i];
    assert ys[|xs|] == x;
  }

  lemma DaLevelSnoc<T>(xs: seq<T>, x: T, key: T -> Address, line: T -> string, sa: string)
    ensures DaLevel(xs + [x], key, line, sa)
         == if key(x).sa == sa
            then DaLevel(xs, key, line, sa)[key(x).da := PgnLevel(xs + [x], key, line, sa, key(x).da)]
            else DaLevel(xs, key, line, sa)
  {
    var t := key(x);
    KeysSnoc(xs, x, key, sa, t.da);
    forall da | da in DaKeys(xs + [x], key, sa) && da != t.da
      ensures PgnLevel(xs + [x], key, line, sa, da) == PgnLevel(xs, key, line, sa, da)
    {
      PgnLevelSnoc(xs, x, key, line, sa, da);
    }
    if t.sa != sa {
      PgnLevelSnoc(xs, x, key, line, sa, t.da);
    }
  }

  /** On a dict that is a grouping, the loop body finds the levels of the grouping, empty
      where the keys are new. */
  lemma PlaceOnGrouped<T>(xs: seq<T>, key: T -> Address, line: T -> string, t: Address, l: string)
    ensures Place(Grouped(xs, key, line), t, l)
         == Grouped(xs, key, line)[t.sa := DaLevel(xs, key, line, t.sa)[t.da :=
              PgnLevel(xs, key, line, t.sa, t.da)[t.pgn := Bucket(xs, key, line, t) + [l]]]]
  {
    var before := Grouped(xs, key, line);
    AbsentLevels(xs, key, line, t);
    var byDa := DaLevel(xs, key, line, t.sa);
    var byPgn := PgnLevel(xs, key, line, t.sa, t.da);
    assert byDa == if t.sa in before then before[t.sa] else map[];
    assert byPgn == if t.da in byDa then byDa[t.da] else map[];
  }

  /** Grouping one more element is one more pass of the loop body. */
  lemma GroupedSnoc<T>(xs: seq<T>, x: T, key: T -> Address, line: T -> string)
    ensures Grouped(xs + [x], key, line) == Place(Grouped(xs, key, line), key(x), line(x))
  {
    var t := key(x);
    var before, after := Grouped(xs, key, line), Grouped(xs + [x], key, line);
    var expected := before[t.sa := DaLevel(xs + [x], key, line, t.sa)];
    assert expected == Place(before, t, line(x)) by {
      PlaceOnGrouped(xs, key, line, t, line(x));
      PgnLevelSnoc(xs, x, key, line, t.sa, t.da);
      DaLevelSnoc(xs, x, key, line, t.sa);
    }
    assert after.Keys == expected.Keys by {
      KeysSnoc(xs, x, key, t.sa, t.da);
    }
    forall sa | sa in after
      ensures after[sa] == expected[sa]
    {
      DaLevelSnoc(xs, x, key, line, sa);
    }
    assert after == expected;
  }

  /** The dict holds a key triple exactly when some element has it, level by level. */
  lemma GroupedKeys<T>(xs: seq<T>, key: T -> Address, line: T -> string, t: Address)
    ensures var g := Grouped(xs, key, line);
      && (t.sa in g <==> exists i | 0 <= i < |xs| :: key(xs[i]).sa == t.sa)
      && (t.sa in g && t.da in g[t.sa]
          <==> exists i | 0 <= i < |xs| :: key(xs[i]).sa == t.sa && key(xs[i]).da == t.da)
      && (Present(g, t) <==> exists i | 0 <= i < |xs| :: key(xs[i]) == t)
  {
    var g := Grouped(xs, key, line);
    if exists i | 0 <= i < |xs| :: key(xs[i]).sa == t.sa && key(xs[i]).da == t.da {
      var i :| 0 <= i < |xs| && key(xs[i]).sa == t.sa && key(xs[i]).da == t.da;
      assert t.sa in SaKeys(xs, key);
    }
    if exists i | 0 <= i < |xs| :: key(xs[i]) == t {
      var i :| 0 <= i < |xs| && key(xs[i]) == t;
      assert t.sa in SaKeys(xs, key) && t.da in DaKeys(xs, key, t.sa);
    }
  }

  /** Under every key triple, present or not, lies the bucket of that triple. */
  lemma LookupGrouped<T>(xs: seq<T>, key: T -> Address, line: T -> string, t: Address)
    ensures Lookup(Grouped(xs, key, line), t) == Bucket(xs, key, line, t)
  {
    if !Present(Grouped(xs, key, line), t) {
      GroupedKeys(xs, key, line, t);
      AbsentLevels(xs, key, line, t);
    }
  }

  /** Every element's line is stored under its own keys. */
  lemma Placement<T>(xs: seq<T>, key: T -> Address, line: T -> string, i: nat)
    requires i < |xs|
    ensures var g := Grouped(xs, key, line);
      Present(g, key(xs[i])) && line(xs[i]) in g[key(xs[i]).sa][key(xs[i]).da][key(xs[i]).pgn]
  {
    var t := key(xs[i]);
    GroupedKeys(xs, key, line, t);
    LookupGrouped(xs, key, line, t);
    SelectMembership(xs, At(key, t), xs[i]);
    var selected := Select(xs, At(key, t));
    var j :| 0 <= j < |selected| && selected[j] == xs[i];
    assert MapSeq(selected, line)[j] == line(xs[i]);
  }

  /** Grouping two logs one after the other puts, under every key triple, the lines of the
      first log before those of the second: input order is kept. */
  lemma GroupedAppend<T>(a: seq<T>, b: seq<T>, key: T -> Address, line: T -> string, t: Address)
    ensures Lookup(Grouped(a + b, key, line), t)
         == Lookup(Grouped(a, key, line), t) + Lookup(Grouped(b, key, line), t)
  {
    LookupGrouped(a + b, key, line, t);
    LookupGrouped(a, key, line, t);
    LookupGrouped(b, key, line, t);
    SelectAppend(a, b, At(key, t));
    MapSeqAppend(Select(a, At(key, t)), Select(b, At(key, t)), line);
  }

  lemma {:induction false} TotalIsCount<T>(xs: seq<T>, key: T -> Address, line: T -> string, ts: seq<Address>)
    ensures TotalLines(Grouped(xs, key, line), ts) == Count(xs, key, ts)
    decreases |ts|
  {
    if ts != [] {
      TotalIsCount(xs, key, line, ts[..|ts| - 1]);
      LookupGrouped(xs, key, line, ts[|ts| - 1]);
    }
  }

  /** One more element raises the count of a list of distinct key triples by one exactly when
      its own triple is in the list. */
  lemma {:induction false} CountSnoc<T>(xs: seq<T>, x: T, key: T -> Address, ts: seq<Address>)
    requires forall i, j | 0 <= i < j < |ts| :: ts[i] != ts[j]
    ensures Count(xs + [x], key, ts) == Count(xs, key, ts) + (if key(x) in ts then 1 else 0)
    decreases |ts|
  {
    if ts != [] {
      var prefix, t := ts[..|ts| - 1], ts[|ts| - 1];
      CountSnoc(xs, x, key, prefix);
      SelectSnoc(xs, x, At(key, t));
      assert key(x) in ts <==> key(x) in prefix || key(x) == t;
    }
  }

  lemma {:induction false} CountAddresses<T>(xs: seq<T>, key: T -> Address)
    ensures Count(xs, key, Addresses(xs, key)) == |xs|
  {
    if xs != [] {
      var prefix, x := xs[..|xs| - 1], xs[|xs| - 1];
      assert xs == prefix + [x];
      var before := Addresses(prefix, key);
      CountAddresses(prefix, key);
      CountSnoc(prefix, x, key, before);
      if key(x) !in before {
        var k := key(x);
        assert Count(xs, key, before + [k]) == Count(xs, key, before) + |Select(xs, At(key, k))| by {
          assert (before + [k])[..|before|] == before;
        }
        SelectSnoc(prefix, x, At(key, k));
        SelectNone(prefix, At(key, k));
      }
    }
  }

  /** Each element is stored exactly once: over the key triples of the dict, each listed once,
      the lists hold as many lines as there are elements. */
  lemma EachOnce<T>(xs: seq<T>, key: T -> Address, line: T -> string)
    ensures forall t :: Present(Grouped(xs, key, line), t) <==> t in Addresses(xs, key)
    ensures TotalLines(Grouped(xs, key, line), Addresses(xs, key)) == |xs|
  {
    forall t
      ensures Present(Grouped(xs, key, line), t) <==> t in Addresses(xs, key)
    {
      GroupedKeys(xs, key, line, t);
    }
    TotalIsCount(xs, key, line, Addresses(xs, key));
    CountAddresses(xs, key);
  }

  /** A CBFF record has neither a destination nor a PGN, so its line is filed under `"None"`
      at both inner levels. */
  lemma CbffUnderNone(messages: seq<Message>, i: nat)
    requires i < |messages| && messages[i].id.cbff
    ensures var g := Grouped(messages, AddressOf, Line);
      var m := messages[i];
      Present(g, Address(SaStr(m), "None", "None")) && Line(m) in g[SaStr(m)]["None"]["None"]
  {
    Placement(messages, AddressOf, Line, i);
    CbffKeys(messages[i]);
  }

  // ---------------------------------------------------------------------------
  // get_names

  function KeysOf<T>(xs: seq<T>, key: T -> string): set<string>
  {
    set i | 0 <= i < |xs| :: key(xs[i])
  }

  function HasKey<T>(key: T -> string, k: string): T -> bool
  {
    x => key(x) == k
  }

  /** A one-level grouping: under each key some element has, the lines of the elements with
      that key, in input order. */
  function ByKey<T>(xs: seq<T>, key: T -> string, line: T -> string): map<string, seq<string>>
  {
    map k | k in KeysOf(xs, key) :: MapSeq(Select(xs, HasKey(key, k)), line)
  }

  /** The list under `k`, empty when `k` is absent. */
  function ListAt(d: map<string, seq<string>>, k: string): seq<string>
  {
    if k in d then d[k] else []
  }

  /** The dict `get_names` returns: the NAME records grouped by `str(sa)`. */
  function NamesBySrc(ms: seq<Message>): map<string, seq<string>>
  {
    ByKey(Select(ms, IsName), SaStr, Line)
  }

  /** The records `get_names` files under `sa`: NAME records from that source. */
  function NameFrom(sa: string): Message -> bool
  {
    Both(IsName, HasKey(SaStr, sa))
  }

  /** `get_names(messages)`. */
  method GetNames(messages: seq<Message>) returns (namesBySrc: map<string, seq<string>>)
    ensures namesBySrc == NamesBySrc(messages)
  {
    namesBySrc := map[];
    for i := 0 to |messages|
      invariant namesBySrc == NamesBySrc(messages[..i])
    {
      var m := messages[i];
      PrefixSnoc(messages, i);
      ByKeySelectSnoc(messages[..i], m, IsName, SaStr, Line);
      if IsName(m) {
        namesBySrc := AddName(namesBySrc, SaStr(m), Line(m));
      }
    }
    assert messages[..|messages|] == messages;
  }

  /** The body of the loop of `get_names` on a NAME record. */
  method AddName(namesBySrc: map<string, seq<string>>, sa: string, line: string)
    returns (r: map<string, seq<string>>)
    ensures r == AddTo(namesBySrc, sa, line)
  {
    r := namesBySrc;
    if sa !in r {
      r := r[sa := []];
      assert r[sa] + [line] == [line];
    }
    r := r[sa := r[sa] + [line]];
  }

  /** The body of the loop of `get_names` on a NAME record: create the list if missing, then
      append the line. */
  function AddTo(d: map<string, seq<string>>, k: string, l: string): map<string, seq<string>>
  {
    d[k := ListAt(d, k) + [l]]
  }

  /** One more element changes the grouping of the selected elements by one pass of the loop
      body when it is selected, and not at all otherwise. */
  lemma ByKeySelectSnoc<T>(xs: seq<T>, x: T, p: T -> bool, key: T -> string, line: T -> string)
    ensures ByKey(Select(xs + [x], p), key, line)
         == if p(x) then AddTo(ByKey(Select(xs, p), key, line), key(x), line(x))
            else ByKey(Select(xs, p), key, line)
  {
    SelectSnoc(xs, x, p);
    if p(x) {
      ByKeySnoc(Select(xs, p), x, key, line);
    } else {
      assert Select(xs + [x], p) == Select(xs, p) + [];
      assert Select(xs, p) + [] == Select(xs, p);
    }
  }

  lemma ByKeySnoc<T>(xs: seq<T>, x: T, key: T -> string, line: T -> string)
    ensures ByKey(xs + [x], key, line)
         == ByKey(xs, key, line)[key(x) := ListAt(ByKey(xs, key, line), key(x)) + [line(x)]]
  {
    var before, after := ByKey(xs, key, line), ByKey(xs + [x], key, line);
    var expected := before[key(x) := ListAt(before, key(x)) + [line(x)]];
    var ys := xs + [x];
    assert forall i | 0 <= i < |xs| :: ys[i] == xs[i];
    assert ys[|xs|] == x;
    assert KeysOf(ys, key) == KeysOf(xs, key) + {key(x)};
    forall k | k in after
      ensures after[k] == expected[k]
    {
      SelectSnoc(xs, x, HasKey(key, k));
      MapSeqAppend(Select(xs, HasKey(key, k)), if key(x) == k then [x] else [], line);
      if k !in before {
        SelectNone(xs, HasKey(key, k));
      }
    }
    assert after == expected;
  }

  /** In a grouping of the selected elements, a key is present exactly when some selected
      element has it. */
  lemma SelectedKeys<T>(xs: seq<T>, p: T -> bool, key: T -> string, line: T -> string, k: string)
    ensures k in ByKey(Select(xs, p), key, line) <==> exists i | 0 <= i < |xs| :: p(xs[i]) && key(xs[i]) == k
  {
    var selected := Select(xs, p);
    if k in ByKey(selected, key, line) {
      var j :| 0 <= j < |selected| && key(selected[j]) == k;
      var i :| 0 <= i < |xs| && xs[i] == selected[j];
    }
    if exists i | 0 <= i < |xs| :: p(xs[i]) && key(xs[i]) == k {
      var i :| 0 <= i < |xs| && p(xs[i]) && key(xs[i]) == k;
      SelectMembership(xs, p, xs[i]);
      var j :| 0 <= j < |selected| && selected[j] == xs[i];
      assert k in KeysOf(selected, key);
    }
  }

  /** In a grouping of the selected elements, under `k` lie the lines of the elements that are
      selected and have key `k`, in input order. */
  lemma SelectedContents<T>(xs: seq<T>, p: T -> bool, key: T -> string, line: T -> string, k: string)
    ensures ListAt(ByKey(Select(xs, p), key, line), k) == MapSeq(Select(xs, Both(p, HasKey(key, k))), line)
  {
    SelectSelect(xs, p, HasKey(key, k));
    if k !in ByKey(Select(xs, p), key, line) {
      SelectNone(Select(xs, p), HasKey(key, k));
    }
  }

  /** A source address is a key exactly when some NAME record comes from it. */
  lemma NamesKeys(ms: seq<Message>, sa: string)
    ensures sa in NamesBySrc(ms) <==> exists i | 0 <= i < |ms| :: IsName(ms[i]) && SaStr(ms[i]) == sa
  {
    SelectedKeys(ms, IsName, SaStr, Line, sa);
  }

  /** Under `sa` lie the lines of exactly the NAME records from `sa`, in input order; an
      absent key stands for none. */
  lemma NamesContents(ms: seq<Message>, sa: string)
    ensures ListAt(NamesBySrc(ms), sa) == MapSeq(Select(ms, NameFrom(sa)), Line)
  {
    SelectedContents(ms, IsName, SaStr, Line, sa);
  }

  /** NAME lines of two logs one after the other: the first log's come first. */
  lemma NamesAppend(a: seq<Message>, b: seq<Message>, sa: string)
    ensures ListAt(NamesBySrc(a + b), sa) == ListAt(NamesBySrc(a), sa) + ListAt(NamesBySrc(b), sa)
  {
    NamesContents(a + b, sa);
    NamesContents(a, sa);
    NamesContents(b, sa);
    SelectAppend(a, b, NameFrom(sa));
    MapSeqAppend(Select(a, NameFrom(sa)), Select(b, NameFrom(sa)), Line);
  }

  /** A CBFF record has no PGN, so it never changes the result of `get_names`. */
  lemma NamesIgnoreCbff(ms: seq<Message>, m: Message)
    requires m.id.cbff
    ensures NamesBySrc(ms + [m]) == NamesBySrc(ms)
  {
    assert !IsName(m) by {
      CbffKeys(m);
    }
    assert Select(ms + [m], IsName) == Select(ms, IsName) by {
      SelectSnoc(ms, m, IsName);
    }
  }
}
