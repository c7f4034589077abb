/** get_pgns.py: `PGN_Filter` keeps the list of PGNs of interest and the log, and iterating
    over it yields the line of every record whose `str(pgn)` is in that list, in log order.
    Iteration reads the two stored lists and changes nothing, so it is a function of them. */
module GetPgns {
  import opened Wrappers
  import opened Text
  import opened J1939Id
  import opened Messages

  /** `PGN_Filter(interest_pgns, messages)`: the constructor stores both lists as given. */
  datatype PgnFilter = PgnFilter(interestPgns: seq<string>, messages: seq<Message>)

  /** `str(can_id.pgn) in self._interest_pgns`. */
  function Wanted(interest: seq<string>): Message -> bool
  {
    m => PgnStr(m) in interest
  }

  /** The records `__iter__` yields a line for, in log order. */
  function Matches(f: PgnFilter): seq<Message>
  {
    Select(f.messages, Wanted(f.interestPgns))
  }

  /** `list(iter(f))`. */
  function Iter(f: PgnFilter): (r: seq<string>)
    ensures |r| <= |f.messages|
  {
    MapSeq(Matches(f), Line)
  }

  // ---------------------------------------------------------------------------
  // Lemmas

  /** A record is matched exactly when it is in the log and its PGN text is listed. */
  lemma MatchesExactly(f: PgnFilter, m: Message)
    ensures m in Matches(f) <==> m in f.messages && PgnStr(m) in f.interestPgns
  {
    SelectMembership(f.messages, Wanted(f.interestPgns), m);
  }

  /** A line is yielded exactly when some record whose PGN text is listed has it as its line. */
  lemma IterLines(f: PgnFilter, line: string)
    ensures line in Iter(f)
        <==> exists i | 0 <= i < |f.messages| :: PgnStr(f.messages[i]) in f.interestPgns && Line(f.messages[i]) == line
  {
    MapSelectMembership(f.messages, Wanted(f.interestPgns), Line, line);
  }

  /** An empty list of interest yields nothing. */
  lemma IterNoInterest(messages: seq<Message>)
    ensures Iter(PgnFilter([], messages)) == []
  {
    SelectNone(messages, Wanted([]));
  }

  /** When every record's PGN text is listed, every line is yielded, in log order. */
  lemma IterEverything(f: PgnFilter)
    requires forall i | 0 <= i < |f.messages| :: PgnStr(f.messages[i]) in f.interestPgns
    ensures Iter(f) == MapSeq(f.messages, Line)
  {
    SelectAll(f.messages, Wanted(f.interestPgns));
  }

  /** Filtering two logs one after the other yields the lines of the first log first. */
  lemma IterAppend(interest: seq<string>, a: seq<Message>, b: seq<Message>)
    ensures Iter(PgnFilter(interest, a + b)) == Iter(PgnFilter(interest, a)) + Iter(PgnFilter(interest, b))
  {
    SelectAppend(a, b, Wanted(interest));
    MapSeqAppend(Matches(PgnFilter(interest, a)), Matches(PgnFilter(interest, b)), Line);
  }

  /** A CEFF record matches exactly when the decimal text of its PGN, without leading zeros,
      is listed. */
  lemma CeffMatch(m: Message, interest: seq<string>)
    requires !m.id.cbff
    ensures Pgn(m.id).Some?
    ensures Wanted(interest)(m) <==> NatToDecimal(Pgn(m.id).value) in interest
  {
  }

  /** A CBFF record has no PGN: it matches exactly when the text `"None"` is listed. */
  lemma CbffMatch(m: Message, interest: seq<string>)
    requires m.id.cbff
    ensures Wanted(interest)(m) <==> "None" in interest
  {
    CbffKeys(m);
  }

  /** The match is on text: a listed PGN written with a leading zero, such as `"060928"`,
      matches no record. */
  lemma LeadingZeroMatchesNothing(key: string, messages: seq<Message>)
    requires |key| >= 2 && key[0] == '0'
    ensures Iter(PgnFilter([key], messages)) == []
  {
    forall i | 0 <= i < |messages|
      ensures !Wanted([key])(messages[i])
    {
      LeadingZeroIsNoKey(key, Pgn(messages[i].id));
    }
    SelectNone(messages, Wanted([key]));
  }

  /** The filter `["60928"]` passes a record with PGN 60928 (such as the address claim
      `18EEFF00`, see `NamePgnExample`), and `["060928"]` does not. */
  lemma NameFilterExample(m: Message)
    requires Pgn(m.id) == Some(NAME_PGN)
    ensures Iter(PgnFilter(["60928"], [m])) == [Line(m)]
    ensures Iter(PgnFilter(["060928"], [m])) == []
  {
    NameRecordKey(m);
    assert Iter(PgnFilter(["60928"], [m])) == [Line(m)] by {
      SelectAll([m], Wanted(["60928"]));
    }
    LeadingZeroMatchesNothing("060928", [m]);
  }

  lemma NameRecordKey(m: Message)
    requires Pgn(m.id) == Some(NAME_PGN)
    ensures PgnStr(m) == "60928"
  {
    NameKey();
  }

  /** The text of PGN 60928 is `"60928"`. */
  lemma NameKey()
    ensures OptionKey(Some(60928)) == "60928"
  {
    assert NatToDecimal(6) == "6";
    assert NatToDecimal(60) == "6" + "0";
    assert NatToDecimal(609) == "60" + "9";
    assert NatToDecimal(6092) == "609" + "2";
  }
}
