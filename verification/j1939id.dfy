/** The J1939 arbitration identifier, `J1939ID` in messages/j1939id.py.

    An identifier is a bit array, most significant bit first, of 11 bits for a classical
    base frame (CBFF) or 29 bits for an extended frame (CEFF), plus a flag saying which.
    The J1939 fields of SAE J1939-21 are fixed bit ranges of a CEFF identifier:

      priority 0..3 | edp 3 | dp 4 | pf 5..13 | ps 13..21 | sa 21..29

    A CBFF identifier has only priority (0..3) and sa (3..11); its other getters give `None`
    and its other setters do nothing.

    The getters are functions of the identifier's state (`IdState`); the setters are methods of
    the class `J1939ID`, which writes slices of its bit array in place. */
module J1939Id {
  import opened Wrappers
  import opened Bits
  import opened Text

  const CBFF_BITS: nat := 11
  const CEFF_BITS: nat := 29
  const MAX_CAN_ID: nat := 0x1FFF_FFFF
  const MAX_CBFF_ID: nat := 0x7FF
  /** pf values from here on are PDU format 2 (broadcast). */
  const PDU2_MIN_PF: nat := 240
  const GLOBAL_ADDRESS: nat := 255
  /** One more than the largest value `int2ba(value, 24)` accepts in the pgn setter. */
  const PGN_SETTER_LIMIT: nat := 0x100_0000

  datatype Error =
    | MalformedHex  // `int(text, 16)` raises ValueError
    | OutOfRange    // the constructor's own check: the value needs more than 29 bits
    | TooLong       // the can_id setter's own check: more than 8 characters after `0x`
    | Overflow      // `int2ba` refuses a value wider than the bit array

  /** The two attributes of a `J1939ID`: the bit array `_can_id` and the flag `_cbff`. */
  datatype IdState = IdState(canId: seq<bool>, cbff: bool)

  function Width(cbff: bool): nat
  {
    if cbff then CBFF_BITS else CEFF_BITS
  }

  /** The width of the bit array is the one its frame format fixes. */
  predicate WellFormed(s: IdState)
  {
    |s.canId| == Width(s.cbff)
  }

  lemma KnownPowers()
    ensures Pow2(1) == 2 && Pow2(3) == 8 && Pow2(8) == 0x100 && Pow2(11) == 0x800
    ensures Pow2(16) == 0x1_0000 && Pow2(17) == 0x2_0000 && Pow2(18) == 0x4_0000
    ensures Pow2(24) == PGN_SETTER_LIMIT && Pow2(25) == 0x200_0000 && Pow2(26) == 0x400_0000
    ensures Pow2(29) == MAX_CAN_ID + 1
  {
  }

  // ---------------------------------------------------------------------------
  // Construction

  /** The constructor switches to CBFF when the text has at most 4 characters (a `0x`
      prefix included) and its value fits in 11 bits. */
  predicate SelectsCbff(canIdText: string)
  {
    |canIdText| <= 4 && ParseHex(canIdText).Some? && ParseHex(canIdText).value <= MAX_CBFF_ID
  }

  /** The calls on which the constructor as written already gives a well-formed identifier:
      all but `J1939ID(can_id, cbff=True)` with a text that parses within range yet does not
      select CBFF. */
  predicate NoFormatClash(canIdText: string, cbff: bool)
  {
    (cbff && canIdText != [] && ParseHex(canIdText).Some? && ParseHex(canIdText).value <= MAX_CAN_ID)
    ==> SelectsCbff(canIdText)
  }

  /** `J1939ID.__init__(can_id, cbff)` as written, with the empty text standing for an absent
      `can_id`: a text that does not select CBFF gets 29 bits but keeps the flag passed in. */
  function InitAsWritten(canIdText: string, cbff: bool): (r: Result<IdState, Error>)
    ensures canIdText != [] && r.Ok? && !SelectsCbff(canIdText) ==>
              r.value.cbff == cbff && |r.value.canId| == CEFF_BITS
  {
    KnownPowers();
    if canIdText == [] then Ok(IdState(Zeros(Width(cbff)), cbff))
    else
      match ParseHex(canIdText)
      case None => Err(MalformedHex)
      case Some(v) =>
        if v > MAX_CAN_ID then Err(OutOfRange)
        else if |canIdText| <= 4 && v <= MAX_CBFF_ID then Ok(IdState(NatToBits(v, CBFF_BITS), true))
        else Ok(IdState(NatToBits(v, CEFF_BITS), cbff))
  }

  /** `J1939ID.__init__(can_id, cbff)`, with the empty text standing for an absent `can_id`,
      and with the flag following the width chosen for a non-empty text. */
  function Init(canIdText: string, cbff: bool): (r: Result<IdState, Error>)
    ensures r.Ok? ==> WellFormed(r.value)
    ensures canIdText == [] ==> r.Ok? && r.value.cbff == cbff && BitsToNat(r.value.canId) == 0
    ensures canIdText != [] && ParseHex(canIdText).None? ==> r == Err(MalformedHex)
    ensures canIdText != [] && ParseHex(canIdText).Some? ==>
              (r.Err? <==> ParseHex(canIdText).value > MAX_CAN_ID) &&
              (r.Err? ==> r.error == OutOfRange) &&
              (r.Ok? ==> BitsToNat(r.value.canId) == ParseHex(canIdText).value
                         && (r.value.cbff <==> SelectsCbff(canIdText)))
  {
    KnownPowers();
    if canIdText == [] then
      ZerosValue(Width(cbff));
      Ok(IdState(Zeros(Width(cbff)), cbff))
    else
      match ParseHex(canIdText)
      case None => Err(MalformedHex)
      case Some(v) =>
        if v > MAX_CAN_ID then Err(OutOfRange)
        else if |canIdText| <= 4 && v <= MAX_CBFF_ID then Ok(IdState(NatToBits(v, CBFF_BITS), true))
        else Ok(IdState(NatToBits(v, CEFF_BITS), false))
  }

  /** The correction changes nothing outside the clash. */
  lemma InitAgreesAsWritten(canIdText: string, cbff: bool)
    requires NoFormatClash(canIdText, cbff)
    ensures Init(canIdText, cbff) == InitAsWritten(canIdText, cbff)
  {
  }

  /** `J1939ID("18EEFF00", cbff=True)` as written holds 29 bits flagged as an 11-bit CBFF
      identifier; corrected, it is the CEFF identifier the text denotes. */
  lemma FormatClash()
    ensures var r := InitAsWritten("18EEFF00", true);
      r.Ok? && r.value.cbff && |r.value.canId| == CEFF_BITS && !WellFormed(r.value)
    ensures var r := Init("18EEFF00", true);
      r.Ok? && !r.value.cbff && WellFormed(r.value)
  {
    ParseNameId();
  }

  // ---------------------------------------------------------------------------
  // Getters

  function Priority(s: IdState): (r: nat)
    requires WellFormed(s)
    ensures r < 8
  {
    Field(s.canId, 0, 3)
  }

  function Edp(s: IdState): (r: Option<nat>)
    requires WellFormed(s)
    ensures r.Some? <==> !s.cbff
    ensures r.Some? ==> r.value < 2
  {
    if s.cbff then None else Some(Field(s.canId, 3, 4))
  }

  function Dp(s: IdState): (r: Option<nat>)
    requires WellFormed(s)
    ensures r.Some? <==> !s.cbff
    ensures r.Some? ==> r.value < 2
  {
    if s.cbff then None else Some(Field(s.canId, 4, 5))
  }

  function Pf(s: IdState): (r: Option<nat>)
    requires WellFormed(s)
    ensures r.Some? <==> !s.cbff
    ensures r.Some? ==> r.value < 0x100
  {
    assert Pow2(8) == 0x100;
    if s.cbff then None else Some(Field(s.canId, 5, 13))
  }

  function Ps(s: IdState): (r: Option<nat>)
    requires WellFormed(s)
    ensures r.Some? <==> !s.cbff
    ensures r.Some? ==> r.value < 0x100
  {
    assert Pow2(8) == 0x100;
    if s.cbff then None else Some(Field(s.canId, 13, 21))
  }

  /** The source address: the last byte of a CEFF identifier, bits 3..11 of a CBFF one. */
  function Sa(s: IdState): (r: nat)
    requires WellFormed(s)
    ensures r < 0x100
  {
    assert Pow2(8) == 0x100;
    if s.cbff then Field(s.canId, 3, 11) else Field(s.canId, 21, 29)
  }

  /** The PDU type: 1 (destination specific) below pf 240, 2 (broadcast) from 240 on. */
  function Type(s: IdState): (r: Option<nat>)
    requires WellFormed(s)
    ensures r.Some? <==> !s.cbff
    ensures r.Some? ==> (r.value == 1 <==> Pf(s).value < PDU2_MIN_PF)
    ensures r.Some? ==> (r.value == 2 <==> Pf(s).value >= PDU2_MIN_PF)
  {
    if s.cbff then None
    else if Pf(s).value < PDU2_MIN_PF then Some(1)
    else Some(2)
  }

  /** The destination address: ps for PDU type 1, the global address for type 2. */
  function Da(s: IdState): (r: Option<nat>)
    requires WellFormed(s)
    ensures r.Some? <==> !s.cbff
    ensures r.Some? ==> r.value < 0x100
    ensures Type(s) == Some(1) ==> r == Ps(s)
    ensures Type(s) == Some(2) ==> r == Some(GLOBAL_ADDRESS)
  {
    if s.cbff then None
    else if Type(s) == Some(1) then Ps(s)
    else Some(GLOBAL_ADDRESS)
  }

  /** The pgn the J1939-21 layout gives to edp, dp, pf and ps: ps counts only from pf 240 on. */
  function PgnOf(edp: nat, dp: nat, pf: nat, ps: nat): (r: nat)
    requires edp < 2 && dp < 2 && pf < 0x100 && ps < 0x100
    ensures r < 0x4_0000
    ensures pf < PDU2_MIN_PF ==> r % 0x100 == 0
    ensures r / 0x100 == edp * 0x200 + dp * 0x100 + pf
  {
    edp * 0x2_0000 + dp * 0x1_0000 + pf * 0x100 + (if pf < PDU2_MIN_PF then 0 else ps)
  }

  /** The parameter group number, assembled as a 24-bit array: six zero bits, edp, dp, pf,
      then a zero byte for PDU type 1 or ps for type 2. */
  function Pgn(s: IdState): (r: Option<nat>)
    requires WellFormed(s)
    ensures r.Some? <==> !s.cbff
    ensures r.Some? ==> r.value == PgnOf(Edp(s).value, Dp(s).value, Pf(s).value, Ps(s).value)
  {
    if s.cbff then None
    else
      var e, d, f, p := Edp(s).value, Dp(s).value, Pf(s).value, Ps(s).value;
      assert Pow2(1) == 2 && Pow2(8) == 0x100;
      var low := if Type(s) == Some(1) then Zeros(8) else NatToBits(p, 8);
      var pgnBits := Zeros(6) + NatToBits(e, 1) + NatToBits(d, 1) + NatToBits(f, 8) + low;
      assert BitsToNat(pgnBits) == PgnOf(e, d, f, p) by {
        ZerosValue(8);
        PgnBitsValue(Zeros(6), NatToBits(e, 1), NatToBits(d, 1), NatToBits(f, 8), low);
      }
      Some(BitsToNat(pgnBits))
  }

  lemma PgnBitsValue(z: seq<bool>, e: seq<bool>, d: seq<bool>, f: seq<bool>, p: seq<bool>)
    requires z == Zeros(6) && |e| == 1 && |d| == 1 && |f| == 8 && |p| == 8
    ensures BitsToNat(z + e + d + f + p)
            == BitsToNat(e) * 0x2_0000 + BitsToNat(d) * 0x1_0000 + BitsToNat(f) * 0x100 + BitsToNat(p)
  {
    KnownPowers();
    ZerosValue(6);
    BitsToNatAppend(z, e);
    BitsToNatAppend(z + e, d);
    BitsToNatAppend(z + e + d, f);
    BitsToNatAppend(z + e + d + f, p);
  }

  /** `hex` (and the `can_id` getter): the bits padded with zeros on the left to whole bytes,
      rendered by `ba2hex` and upper-cased. */
  function Hex(s: IdState): (r: string)
    requires WellFormed(s)
    ensures |r| == (if s.cbff then 4 else 8)
    ensures IsUpperHex(r)
    ensures ParseHex(r) == Some(BitsToNat(s.canId))
  {
    var filled := FillLeft(s.canId);
    assert |filled| == (if s.cbff then 16 else 32);
    var lower := Ba2Hex(filled);
    assert |lower| == (if s.cbff then 4 else 8);
    Ba2HexValue(filled);
    UpperHexValue(lower);
    var r := Upper(lower);
    UpperHexHasNoPrefix(r);
    r
  }

  /** `bin`: the bits as '0'/'1' characters, unpadded; `int(bin, 2)` is the raw value. */
  function Bin(s: IdState): (r: string)
    requires WellFormed(s)
    ensures |r| == Width(s.cbff)
    ensures forall i | 0 <= i < |r| :: r[i] == '0' || r[i] == '1'
    ensures BinaryValue(r) == BitsToNat(s.canId)
  {
    BinaryValueOfTo01(s.canId);
    To01(s.canId)
  }

  datatype DictValue = StrValue(str: string) | IntValue(n: nat) | NoneValue

  function OptionValue(o: Option<nat>): DictValue
  {
    match o
    case None => NoneValue
    case Some(n) => IntValue(n)
  }

  /** The keys of `dict`, one constructor per key string (`KeyName`). */
  datatype DictKey =
    | CanIdKey | PriorityKey | EdpKey | DpKey | PfKey | PsKey | SaKey | DaKey | PgnKey
    | PduTypeKey | IdTypeKey

  function KeyName(k: DictKey): string
  {
    match k
    case CanIdKey => "can_id"
    case PriorityKey => "priority"
    case EdpKey => "edp"
    case DpKey => "dp"
    case PfKey => "pf"
    case PsKey => "ps"
    case SaKey => "sa"
    case DaKey => "da"
    case PgnKey => "pgn"
    case PduTypeKey => "pdu_type"
    case IdTypeKey => "id_type"
  }

  /** The keys of `dict` whose values are `None` for a CBFF identifier. */
  const CEFF_ONLY_KEYS: set<DictKey> := {EdpKey, DpKey, PfKey, PsKey, DaKey, PgnKey, PduTypeKey}

  /** The value `dict` stores under a key: the getter of that name. */
  function DictEntry(s: IdState, k: DictKey): (r: DictValue)
    requires WellFormed(s)
    ensures k in CEFF_ONLY_KEYS ==> (r == NoneValue <==> s.cbff)
    ensures k !in CEFF_ONLY_KEYS ==> r != NoneValue
  {
    match k
    case CanIdKey => StrValue(Hex(s))
    case PriorityKey => IntValue(Priority(s))
    case EdpKey => OptionValue(Edp(s))
    case DpKey => OptionValue(Dp(s))
    case PfKey => OptionValue(Pf(s))
    case PsKey => OptionValue(Ps(s))
    case SaKey => IntValue(Sa(s))
    case DaKey => OptionValue(Da(s))
    case PgnKey => OptionValue(Pgn(s))
    case PduTypeKey => OptionValue(Type(s))
    case IdTypeKey => StrValue("cbff")
  }

  /** `dict`: every getter's value by name, plus `id_type: "cbff"` for a CBFF identifier. */
  function Dict(s: IdState): (r: map<DictKey, DictValue>)
    requires WellFormed(s)
    ensures r.Keys == CEFF_ONLY_KEYS + {CanIdKey, PriorityKey, SaKey} + (if s.cbff then {IdTypeKey} else {})
    ensures forall k | k in r :: r[k] == DictEntry(s, k)
  {
    var keys := CEFF_ONLY_KEYS + {CanIdKey, PriorityKey, SaKey} + (if s.cbff then {IdTypeKey} else {});
    map k | k in keys :: DictEntry(s, k)
  }

  // ---------------------------------------------------------------------------
  // The can_id setter and the pgn setter as functions of the state

  /** The can_id setter drops one leading lower-case `0x`. */
  function StripPrefix(value: string): (r: string)
    ensures |r| <= |value|
  {
    if |value| >= 2 && value[0] == '0' && value[1] == 'x' then value[2..] else value
  }

  /** `can_id = value`: the text is re-encoded at the width of the current format. */
  function AssignCanId(s: IdState, value: string): (r: Result<IdState, Error>)
    requires WellFormed(s)
    ensures r.Ok? ==> r.value.cbff == s.cbff && WellFormed(r.value)
    ensures |StripPrefix(value)| > 8 ==> r == Err(TooLong)
    ensures |StripPrefix(value)| <= 8 && ParseHex(StripPrefix(value)).None? ==> r == Err(MalformedHex)
    ensures |StripPrefix(value)| <= 8 && ParseHex(StripPrefix(value)).Some? ==>
              (r.Err? <==> ParseHex(StripPrefix(value)).value >= Pow2(Width(s.cbff))) &&
              (r.Err? ==> r.error == Overflow) &&
              (r.Ok? ==> BitsToNat(r.value.canId) == ParseHex(StripPrefix(value)).value)
  {
    var text := StripPrefix(value);
    if |text| > 8 then Err(TooLong)
    else match ParseHex(text)
      case None => Err(MalformedHex)
      case Some(v) =>
        if v >= Pow2(Width(s.cbff)) then Err(Overflow)
        else Ok(IdState(NatToBits(v, Width(s.cbff)), s.cbff))
  }

  /** The pgn setter's four slice writes on a CEFF bit array: bits 6..24 of `int2ba(value, 24)`
      become edp, dp, pf and ps. */
  function WritePgnBits(bits: seq<bool>, value: nat): (r: seq<bool>)
    requires |bits| == CEFF_BITS && value < PGN_SETTER_LIMIT
    ensures |r| == CEFF_BITS && r[..3] == bits[..3] && r[21..] == bits[21..]
  {
    KnownPowers();
    bits[..3] + NatToBits(value, 24)[6..] + bits[21..]
  }

  /** What the pgn getter returns after `pgn = value`: the bits above 17 are lost, and so is the
      low byte when the new pf makes the identifier PDU type 1. */
  function PgnReadBack(value: nat): (r: nat)
    ensures r < 0x4_0000
  {
    var low18 := value % 0x4_0000;
    if (value / 0x100) % 0x100 < PDU2_MIN_PF then low18 - low18 % 0x100 else low18
  }

  // ---------------------------------------------------------------------------
  // Lemmas

  /** A field read over bits that a write left alone gives the same value. */
  lemma FieldFrame(a: seq<bool>, b: seq<bool>, lo: nat, hi: nat, i: nat, j: nat)
    requires |a| == |b| && lo <= hi <= |a| && i <= j <= |a|
    requires a[..lo] == b[..lo] && a[hi..] == b[hi..]
    requires j <= lo || hi <= i
    ensures Field(a, i, j) == Field(b, i, j)
  {
    forall k | i <= k < j
      ensures a[k] == b[k]
    {
      if j <= lo {
        assert a[k] == a[..lo][k] && b[k] == b[..lo][k];
      } else {
        assert a[k] == a[hi..][k - hi] && b[k] == b[hi..][k - hi];
      }
    }
    assert a[i..j] == b[i..j];
  }

  /** After `pgn = value` on a CEFF identifier, edp, dp, pf and ps hold bits 17, 16, 8..16 and
      0..8 of the value, and priority and sa are as before. */
  lemma PgnWriteFields(s: IdState, value: nat)
    requires WellFormed(s) && !s.cbff && value < PGN_SETTER_LIMIT
    ensures var t := IdState(WritePgnBits(s.canId, value), false);
      && WellFormed(t)
      && Edp(t) == Some((value / 0x2_0000) % 2)
      && Dp(t) == Some((value / 0x1_0000) % 2)
      && Pf(t) == Some((value / 0x100) % 0x100)
      && Ps(t) == Some(value % 0x100)
      && Priority(t) == Priority(s) && Sa(t) == Sa(s)
  {
    KnownPowers();
    var p := NatToBits(value, 24);
    var r := WritePgnBits(s.canId, value);
    assert r[3..4] == p[6..7];
    assert r[4..5] == p[7..8];
    assert r[5..13] == p[8..16];
    assert r[13..21] == p[16..24];
    FieldOfValue(value, 24, 6, 7, 0x2_0000, 2);
    FieldOfValue(value, 24, 7, 8, 0x1_0000, 2);
    FieldOfValue(value, 24, 8, 16, 0x100, 0x100);
    FieldOfValue(value, 24, 16, 24, 1, 0x100);
    FieldFrame(r, s.canId, 3, 21, 0, 3);
    FieldFrame(r, s.canId, 3, 21, 21, 29);
  }

  /** Setting the pgn and reading it back gives `PgnReadBack(value)`. */
  lemma PgnSetGet(s: IdState, value: nat)
    requires WellFormed(s) && !s.cbff && value < PGN_SETTER_LIMIT
    ensures Pgn(IdState(WritePgnBits(s.canId, value), false)) == Some(PgnReadBack(value))
  {
    var t := IdState(WritePgnBits(s.canId, value), false);
    assert Edp(t) == Some((value / 0x2_0000) % 2) && Dp(t) == Some((value / 0x1_0000) % 2)
        && Pf(t) == Some((value / 0x100) % 0x100) && Ps(t) == Some(value % 0x100) by {
      PgnWriteFields(s, value);
    }
    PgnDigits(value);
  }

  /** Bits 17, 16, 8..16 and 0..8 of a value, laid out as a pgn, give what the pgn getter
      reads back after `pgn = value`. */
  lemma PgnDigits(v: nat)
    ensures PgnOf((v / 0x2_0000) % 2, (v / 0x1_0000) % 2, (v / 0x100) % 0x100, v % 0x100)
            == PgnReadBack(v)
  {
    var q, a := v / 0x4_0000, v % 0x4_0000;
    var e, a1 := a / 0x2_0000, a % 0x2_0000;
    var d, a2 := a1 / 0x1_0000, a1 % 0x1_0000;
    var f, p := a2 / 0x100, a2 % 0x100;
    DivModUnique(v, 0x2_0000, q * 2 + e, a1);
    DivModUnique(q * 2 + e, 2, q, e);
    DivModUnique(v, 0x1_0000, q * 4 + e * 2 + d, a2);
    DivModUnique(q * 4 + e * 2 + d, 2, q * 2 + e, d);
    DivModUnique(v, 0x100, q * 0x400 + e * 0x200 + d * 0x100 + f, p);
    DivModUnique(q * 0x400 + e * 0x200 + d * 0x100 + f, 0x100, q * 4 + e * 2 + d, f);
    DivModUnique(a, 0x100, e * 0x200 + d * 0x100 + f, p);
  }

  /** The pgn written is the pgn read exactly when it has at most 18 bits and, should its pf
      byte make it PDU type 1, a zero low byte; no other value round-trips. */
  lemma PgnRoundTrip(s: IdState, value: nat)
    requires WellFormed(s) && !s.cbff && value < PGN_SETTER_LIMIT
    ensures Pgn(IdState(WritePgnBits(s.canId, value), false)) == Some(value)
            <==> value < 0x4_0000 && ((value / 0x100) % 0x100 < PDU2_MIN_PF ==> value % 0x100 == 0)
  {
    PgnSetGet(s, value);
    ReadBackIdentity(value);
  }

  /** `PgnReadBack` is the identity exactly on the values that survive the pgn setter. */
  lemma ReadBackIdentity(v: nat)
    ensures PgnReadBack(v) == v <==> v < 0x4_0000 && ((v / 0x100) % 0x100 < PDU2_MIN_PF ==> v % 0x100 == 0)
  {
    if v < 0x4_0000 {
      DivModUnique(v, 0x4_0000, 0, v);
    }
  }

  /** The pgn of edp, dp, pf and ps has them back as its bits 17, 16, 8..16 and 0..8, except
      that the low byte is zero below pf 240. */
  lemma PgnOfDigits(e: nat, d: nat, f: nat, p: nat)
    requires e < 2 && d < 2 && f < 0x100 && p < 0x100
    ensures var v := PgnOf(e, d, f, p);
      && (v / 0x2_0000) % 2 == e && (v / 0x1_0000) % 2 == d && (v / 0x100) % 0x100 == f
      && v % 0x100 == (if f < PDU2_MIN_PF then 0 else p)
  {
    var v := PgnOf(e, d, f, p);
    var low := if f < PDU2_MIN_PF then 0 else p;
    DivModUnique(v, 0x2_0000, e, d * 0x1_0000 + f * 0x100 + low);
    DivModUnique(e, 2, 0, e);
    DivModUnique(v, 0x1_0000, e * 2 + d, f * 0x100 + low);
    DivModUnique(e * 2 + d, 2, e, d);
    DivModUnique(v, 0x100, e * 0x200 + d * 0x100 + f, low);
    DivModUnique(e * 0x200 + d * 0x100 + f, 0x100, e * 2 + d, f);
  }

  /** `x.pgn = x.pgn` keeps every field of a PDU type 2 identifier, but clears ps, the
      destination, of a PDU type 1 identifier. */
  lemma PgnSelfAssign(s: IdState)
    requires WellFormed(s) && !s.cbff
    ensures var t := IdState(WritePgnBits(s.canId, Pgn(s).value), false);
      && Pgn(t) == Pgn(s) && Priority(t) == Priority(s) && Sa(t) == Sa(s)
      && Edp(t) == Edp(s) && Dp(t) == Dp(s) && Pf(t) == Pf(s)
      && Ps(t) == (if Type(s) == Some(1) then Some(0) else Ps(s))
  {
    var e, d, f, p := Edp(s).value, Dp(s).value, Pf(s).value, Ps(s).value;
    var v := Pgn(s).value;
    assert v == PgnOf(e, d, f, p);
    assert v < PGN_SETTER_LIMIT;
    PgnOfDigits(e, d, f, p);
    PgnWriteFields(s, v);
  }

  /** `hex` is read back by the constructor: `J1939ID(x.hex)` has x's bits and format. */
  lemma HexRoundTrip(s: IdState)
    requires WellFormed(s)
    ensures Init(Hex(s), false) == Ok(s)
  {
    KnownPowers();
    NatToBitsOfValue(s.canId);
  }

  /** The can_id setter accepts `hex` and leaves the identifier as it was. */
  lemma CanIdSetterRoundTrip(s: IdState)
    requires WellFormed(s)
    ensures AssignCanId(s, Hex(s)) == Ok(s)
  {
    var h := Hex(s);
    assert h[1] != 'x';
    NatToBitsOfValue(s.canId);
  }

  /** Two identifiers with the same `hex` have the same bits and the same format. */
  lemma HexInjective(s: IdState, t: IdState)
    requires WellFormed(s) && WellFormed(t)
    ensures Hex(s) == Hex(t) <==> s == t
  {
    HexRoundTrip(s);
    HexRoundTrip(t);
  }

  /** Writing ps through the da setter keeps the PDU type; for type 2 the pgn changes by
      exactly the difference between the new and the old ps. */
  lemma DaWrite(s: IdState, value: nat)
    requires WellFormed(s) && !s.cbff && value < 0x100
    ensures var t := IdState(WriteField(s.canId, 13, 8, value), false);
      && WellFormed(t) && Ps(t) == Some(value) && Type(t) == Type(s)
      && Da(t) == (if Type(s) == Some(1) then Some(value) else Some(GLOBAL_ADDRESS))
      && (Type(s) == Some(1) ==> Pgn(t) == Pgn(s))
      && (Type(s) == Some(2) ==> Pgn(t).value + Ps(s).value == Pgn(s).value + value)
  {
    KnownPowers();
    var r := WriteField(s.canId, 13, 8, value);
    FieldFrame(r, s.canId, 13, 21, 3, 4);
    FieldFrame(r, s.canId, 13, 21, 4, 5);
    FieldFrame(r, s.canId, 13, 21, 5, 13);
  }

  /** The getters read a CEFF identifier as the J1939-21 layout: 3 bits of priority, edp, dp,
      then the pf, ps and sa bytes. */
  lemma CeffFields(v: nat, pri: nat, edp: nat, dp: nat, pf: nat, ps: nat, sa: nat)
    requires pri < 8 && edp < 2 && dp < 2 && pf < 0x100 && ps < 0x100 && sa < 0x100
    requires v == pri * 0x400_0000 + edp * 0x200_0000 + dp * 0x100_0000 + pf * 0x1_0000 + ps * 0x100 + sa
    ensures v < Pow2(CEFF_BITS)
    ensures var s := IdState(NatToBits(v, CEFF_BITS), false);
      && Priority(s) == pri && Edp(s) == Some(edp) && Dp(s) == Some(dp)
      && Pf(s) == Some(pf) && Ps(s) == Some(ps) && Sa(s) == sa
  {
    var top := pri * 4 + edp * 2 + dp;
    var upper := top * 0x100 + pf;
    var w := upper * 0x100 + ps;
    CeffTopFields(v, pri, edp, dp, pf * 0x1_0000 + ps * 0x100 + sa);
    CeffByte(v, 5, 0x1_0000, top, pf, ps * 0x100 + sa);
    CeffByte(v, 13, 0x100, upper, ps, sa);
    CeffByte(v, 21, 1, w, sa, 0);
  }

  /** Priority, edp and dp are bits 28..26, 25 and 24 of the raw value. */
  lemma CeffTopFields(v: nat, pri: nat, edp: nat, dp: nat, low: nat)
    requires pri < 8 && edp < 2 && dp < 2 && low < 0x100_0000
    requires v == (pri * 4 + edp * 2 + dp) * 0x100_0000 + low
    ensures v < Pow2(CEFF_BITS)
    ensures var s := IdState(NatToBits(v, CEFF_BITS), false);
      Priority(s) == pri && Edp(s) == Some(edp) && Dp(s) == Some(dp)
  {
    var top := pri * 4 + edp * 2 + dp;
    KnownPowers();
    assert Field(NatToBits(v, CEFF_BITS), 0, 3) == pri by {
      FieldOfValue(v, 29, 0, 3, 0x400_0000, 8);
      DivModUnique(v, 0x400_0000, pri, (edp * 2 + dp) * 0x100_0000 + low);
      DivModUnique(pri, 8, 0, pri);
    }
    assert Field(NatToBits(v, CEFF_BITS), 3, 4) == edp by {
      FieldOfValue(v, 29, 3, 4, 0x200_0000, 2);
      var q := pri * 2 + edp;
      DivModUnique(v, 0x200_0000, q, dp * 0x100_0000 + low);
      DivModUnique(q, 2, pri, edp);
      assert (v / 0x200_0000) % 2 == q % 2;
    }
    assert Field(NatToBits(v, CEFF_BITS), 4, 5) == dp by {
      FieldOfValue(v, 29, 4, 5, 0x100_0000, 2);
      DivModUnique(v, 0x100_0000, top, low);
      DivModUnique(top, 2, pri * 2 + edp, dp);
    }
  }

  /** A byte of a CEFF identifier that starts at bit i is the byte of the raw value that has
      29 - (i + 8) bits below it. */
  lemma CeffByte(v: nat, i: nat, below: nat, high: nat, byte: nat, low: nat)
    requires v <= MAX_CAN_ID
    requires (i == 5 && below == 0x1_0000) || (i == 13 && below == 0x100) || (i == 21 && below == 1)
    requires byte < 0x100 && low < below && v == (high * 0x100 + byte) * below + low
    ensures v < Pow2(CEFF_BITS) && Field(NatToBits(v, CEFF_BITS), i, i + 8) == byte
  {
    ByteOf(v, below, high, byte, low);
    KnownPowers();
    FieldOfValue(v, CEFF_BITS, i, i + 8, below, 0x100);
  }

  /** The byte of v just above its lowest `below`. */
  lemma ByteOf(v: nat, below: nat, high: nat, byte: nat, low: nat)
    requires 0 < below && byte < 0x100 && low < below && v == (high * 0x100 + byte) * below + low
    ensures (v / below) % 0x100 == byte
  {
    var q := high * 0x100 + byte;
    DivModUnique(v, below, q, low);
    DivModUnique(q, 0x100, high, byte);
  }

  /** A CBFF identifier has a 3-bit priority and then the source address byte; it has no pgn,
      destination or PDU type. */
  lemma CbffFields(v: nat, pri: nat, sa: nat)
    requires pri < 8 && sa < 0x100 && v == pri * 0x100 + sa
    ensures v < Pow2(CBFF_BITS)
    ensures var s := IdState(NatToBits(v, CBFF_BITS), true);
      && Priority(s) == pri && Sa(s) == sa
      && Pgn(s).None? && Da(s).None? && Type(s).None?
  {
    KnownPowers();
    assert Field(NatToBits(v, CBFF_BITS), 0, 3) == pri by {
      FieldOfValue(v, 11, 0, 3, 0x100, 8);
      DivModUnique(v, 0x100, pri, sa);
      DivModUnique(pri, 8, 0, pri);
    }
    assert Field(NatToBits(v, CBFF_BITS), 3, 11) == sa by {
      FieldOfValue(v, 11, 3, 11, 1, 0x100);
      DivModUnique(v, 0x100, pri, sa);
    }
  }

  /** The frame formats the constructor chooses, on the texts that show the rule. */
  lemma FormatSelectionExamples()
    ensures Init("7FF", false).Ok? && Init("7FF", false).value.cbff
    ensures Init("000007FF", false).Ok? && !Init("000007FF", false).value.cbff
    ensures Init("0x7FF", false).Ok? && !Init("0x7FF", false).value.cbff
    ensures Init("20000000", false) == Err(OutOfRange)
    ensures Init("18EEFF0G", false) == Err(MalformedHex)
  {
    assert Init("7FF", false).Ok? && Init("7FF", false).value.cbff by {
      Parse7FF();
    }
    assert Init("0x7FF", false).Ok? && !Init("0x7FF", false).value.cbff by {
      ParsePrefixed7FF();
    }
    assert Init("000007FF", false).Ok? && !Init("000007FF", false).value.cbff by {
      ParsePadded7FF();
    }
    assert Init("20000000", false) == Err(OutOfRange) by {
      ParseTooWide();
    }
    assert Init("18EEFF0G", false) == Err(MalformedHex) by {
      RejectNonHex();
    }
  }

  lemma ParsePrefixed7FF()
    ensures ParseHex("0x7FF") == Some(0x7FF)
  {
    var s := "0x7FF";
    assert s[0] == '0' && s[1] == 'x' && s[2..] == "7FF";
    Parse7FF();
  }

  lemma RejectNonHex()
    ensures ParseHex("18EEFF0G").None?
  {
    var s := "18EEFF0G";
    assert s[1] == '8' && s[7] == 'G';
  }

  lemma Parse7FF()
    ensures ParseHex("7FF") == Some(0x7FF)
  {
    assert [] + ['7'] == "7" && "7" + ['F'] == "7F" && "7F" + ['F'] == "7FF";
    HexValueSnoc("", '7');
    HexValueSnoc("7", 'F');
    HexValueSnoc("7F", 'F');
  }

  lemma ParsePadded7FF()
    ensures ParseHex("000007FF") == Some(0x7FF)
  {
    HexZeros();
    assert "0000" + ['0'] == "00000" && "00000" + ['7'] == "000007";
    assert "000007" + ['F'] == "000007F" && "000007F" + ['F'] == "000007FF";
    HexValueSnoc("0000", '0');
    HexValueSnoc("00000", '7');
    HexValueSnoc("000007", 'F');
    HexValueSnoc("000007F", 'F');
  }

  lemma ParseTooWide()
    ensures ParseHex("20000000") == Some(0x2000_0000)
  {
    HexTwoThousand();
    assert "2000" + ['0'] == "20000" && "20000" + ['0'] == "200000";
    assert "200000" + ['0'] == "2000000" && "2000000" + ['0'] == "20000000";
    HexValueSnoc("2000", '0');
    HexValueSnoc("20000", '0');
    HexValueSnoc("200000", '0');
    HexValueSnoc("2000000", '0');
  }

  lemma HexZeros()
    ensures AllHex("0000") && HexValue("0000") == 0
  {
    assert [] + ['0'] == "0" && "0" + ['0'] == "00" && "00" + ['0'] == "000" && "000" + ['0'] == "0000";
    HexValueSnoc("", '0');
    HexValueSnoc("0", '0');
    HexValueSnoc("00", '0');
    HexValueSnoc("000", '0');
  }

  lemma HexTwoThousand()
    ensures AllHex("2000") && HexValue("2000") == 0x2000
  {
    assert [] + ['2'] == "2" && "2" + ['0'] == "20" && "20" + ['0'] == "200" && "200" + ['0'] == "2000";
    HexValueSnoc("", '2');
    HexValueSnoc("2", '0');
    HexValueSnoc("20", '0');
    HexValueSnoc("200", '0');
  }

  /** "18EEFF00", an address-claim frame, carries the NAME pgn 60928 from source 0 to the
      global address. */
  lemma NamePgnExample()
    ensures var r := Init("18EEFF00", false);
      && r.Ok? && Priority(r.value) == 6 && Pgn(r.value) == Some(60928)
      && Type(r.value) == Some(1) && Da(r.value) == Some(0xFF) && Sa(r.value) == 0
  {
    CeffFields(0x18EE_FF00, 6, 0, 0, 0xEE, 0xFF, 0);
    ParseNameId();
    assert PgnOf(0, 0, 0xEE, 0xFF) == 60928;
  }

  lemma ParseNameId()
    ensures ParseHex("18EEFF00") == Some(0x18EE_FF00)
  {
    assert AllHex("18EE") && HexValue("18EE") == 0x18EE by {
      assert [] + ['1'] == "1" && "1" + ['8'] == "18" && "18" + ['E'] == "18E" && "18E" + ['E'] == "18EE";
      HexValueSnoc("", '1');
      HexValueSnoc("1", '8');
      HexValueSnoc("18", 'E');
      HexValueSnoc("18E", 'E');
    }
    assert "18EE" + ['F'] == "18EEF" && "18EEF" + ['F'] == "18EEFF" && "18EEFF" + ['0'] == "18EEFF0";
    assert "18EEFF0" + ['0'] == "18EEFF00";
    HexValueSnoc("18EE", 'F');
    HexValueSnoc("18EEF", 'F');
    HexValueSnoc("18EEFF", '0');
    HexValueSnoc("18EEFF0", '0');
  }

  /** The pgn setter's four slice writes of `int2ba(value, 24)`, one after the other, are
      `WritePgnBits`: bits 6..24 of the pgn bits in place of bits 3..21 of the identifier. */
  lemma PgnSliceWrites(b: seq<bool>, value: nat)
    requires |b| == CEFF_BITS && value < PGN_SETTER_LIMIT
    ensures Pow2(24) == PGN_SETTER_LIMIT
    ensures var p := NatToBits(value, 24);
      Splice(Splice(Splice(Splice(b, 3, p[6..7]), 4, p[7..8]), 5, p[8..16]), 13, p[16..24])
      == WritePgnBits(b, value)
  {
    KnownPowers();
    var p := NatToBits(value, 24);
    var c1 := Splice(b, 3, p[6..7]);
    assert c1[..4] == b[..3] + p[6..7] && c1[5..] == b[5..];
    var c2 := Splice(c1, 4, p[7..8]);
    assert c2[..5] == b[..3] + p[6..8] && c2[13..] == b[13..];
    var c3 := Splice(c2, 5, p[8..16]);
    assert c3[..13] == b[..3] + p[6..16] && c3[21..] == b[21..];
    assert p[6..16] + p[16..24] == p[6..];
  }

  // ---------------------------------------------------------------------------
  // The class

  /** `J1939ID`: a bit array that the setters write slice by slice, and its format flag. */
  class J1939ID {
    var canId: seq<bool>
    var cbff: bool

    function State(): IdState
      reads this
    {
      IdState(canId, cbff)
    }

    ghost predicate Valid()
      reads this
    {
      WellFormed(State())
    }

    constructor FromState(s: IdState)
      requires WellFormed(s)
      ensures Valid() && State() == s
    {
      canId := s.canId;
      cbff := s.cbff;
    }

    /** `J1939ID(can_id, cbff)`: an empty text is an absent `can_id`; a failed parse or a
        value over 29 bits is a `ValueError`. */
    static method New(canIdText: string, cbff: bool) returns (r: Result<J1939ID, Error>)
      ensures Init(canIdText, cbff).Err? ==> r == Err(Init(canIdText, cbff).error)
      ensures Init(canIdText, cbff).Ok? ==>
                r.Ok? && fresh(r.value) && r.value.Valid() && r.value.State() == Init(canIdText, cbff).value
    {
      var init := Init(canIdText, cbff);
      if init.Err? {
        r := Err(init.error);
      } else {
        var id := new J1939ID.FromState(init.value);
        r := Ok(id);
      }
    }

    /** `can_id = value`: re-encodes the text at the current width; on an error nothing changes. */
    method SetCanId(value: string) returns (r: Outcome<Error>)
      requires Valid()
      modifies this
      ensures Valid() && cbff == old(cbff)
      ensures AssignCanId(old(State()), value).Err? ==>
                r == Fail(AssignCanId(old(State()), value).error) && canId == old(canId)
      ensures AssignCanId(old(State()), value).Ok? ==>
                r == Pass && State() == AssignCanId(old(State()), value).value
    {
      match AssignCanId(State(), value)
      case Err(e) =>
        r := Fail(e);
      case Ok(s) =>
        canId := s.canId;
        r := Pass;
    }

    /** `priority = value`: `int2ba(value, 3)` written into bits 0-3 of either format; a value
        that needs more than 3 bits is an `OverflowError` and nothing changes. */
    method SetPriority(value: nat) returns (r: Outcome<Error>)
      requires Valid()
      modifies this
      ensures Valid() && cbff == old(cbff)
      ensures r.Fail? <==> value >= 8
      ensures r.Fail? ==> r.error == Overflow && canId == old(canId)
      ensures r.Pass? ==> Priority(State()) == value
      ensures canId[3..] == old(canId[3..])
      ensures Sa(State()) == old(Sa(State()))
    {
      if value >= 8 {
        return Fail(Overflow);
      }
      assert Pow2(3) == 8;
      var before := canId;
      canId := WriteField(canId, 0, 3, value);
      if cbff {
        FieldFrame(canId, before, 0, 3, 3, 11);
      } else {
        FieldFrame(canId, before, 0, 3, 21, 29);
      }
      r := Pass;
    }

    /** `edp = value`: a CBFF identifier ignores it; a CEFF one takes `int2ba(value, 1)` into
        bit 3, or raises `OverflowError` and keeps its bits. */
    method SetEdp(value: nat) returns (r: Outcome<Error>)
      requires Valid()
      modifies this
      ensures Valid() && cbff == old(cbff)
      ensures r.Fail? <==> !cbff && value >= 2
      ensures r.Fail? ==> r.error == Overflow
      ensures cbff || r.Fail? ==> canId == old(canId)
      ensures !cbff && r.Pass? ==> Edp(State()) == Some(value)
      ensures canId[..3] == old(canId[..3]) && canId[4..] == old(canId[4..])
    {
      if !cbff && value >= 2 {
        return Fail(Overflow);
      }
      assert Pow2(1) == 2;
      if !cbff {
        canId := WriteField(canId, 3, 1, value);
      }
      r := Pass;
    }

    /** `dp = value`: as `edp`, for bit 4. */
    method SetDp(value: nat) returns (r: Outcome<Error>)
      requires Valid()
      modifies this
      ensures Valid() && cbff == old(cbff)
      ensures r.Fail? <==> !cbff && value >= 2
      ensures r.Fail? ==> r.error == Overflow
      ensures cbff || r.Fail? ==> canId == old(canId)
      ensures !cbff && r.Pass? ==> Dp(State()) == Some(value)
      ensures canId[..4] == old(canId[..4]) && canId[5..] == old(canId[5..])
    {
      if !cbff && value >= 2 {
        return Fail(Overflow);
      }
      assert Pow2(1) == 2;
      if !cbff {
        canId := WriteField(canId, 4, 1, value);
      }
      r := Pass;
    }

    /** `pf = value`: as `edp`, for the 8 bits 5-13. */
    method SetPf(value: nat) returns (r: Outcome<Error>)
      requires Valid()
      modifies this
      ensures Valid() && cbff == old(cbff)
      ensures r.Fail? <==> !cbff && value >= 0x100
      ensures r.Fail? ==> r.error == Overflow
      ensures cbff || r.Fail? ==> canId == old(canId)
      ensures !cbff && r.Pass? ==> Pf(State()) == Some(value)
      ensures !cbff ==> canId[..5] == old(canId[..5]) && canId[13..] == old(canId[13..])
    {
      if !cbff && value >= 0x100 {
        return Fail(Overflow);
      }
      assert Pow2(8) == 0x100;
      if !cbff {
        canId := WriteField(canId, 5, 8, value);
      }
      r := Pass;
    }

    /** `ps = value`: as `edp`, for the 8 bits 13-21. */
    method SetPs(value: nat) returns (r: Outcome<Error>)
      requires Valid()
      modifies this
      ensures Valid() && cbff == old(cbff)
      ensures r.Fail? <==> !cbff && value >= 0x100
      ensures r.Fail? ==> r.error == Overflow
      ensures cbff || r.Fail? ==> canId == old(canId)
      ensures !cbff && r.Pass? ==> Ps(State()) == Some(value)
      ensures !cbff ==> canId[..13] == old(canId[..13]) && canId[21..] == old(canId[21..])
    {
      if !cbff && value >= 0x100 {
        return Fail(Overflow);
      }
      assert Pow2(8) == 0x100;
      if !cbff {
        canId := WriteField(canId, 13, 8, value);
      }
      r := Pass;
    }

    /** `sa = value`: the source address of either format, bits 21-29 of a CEFF identifier
        and bits 3-11 of a CBFF one; a value over 8 bits is an `OverflowError`. */
    method SetSa(value: nat) returns (r: Outcome<Error>)
      requires Valid()
      modifies this
      ensures Valid() && cbff == old(cbff)
      ensures r.Fail? <==> value >= 0x100
      ensures r.Fail? ==> r.error == Overflow && canId == old(canId)
      ensures r.Pass? ==> Sa(State()) == value
      ensures Priority(State()) == old(Priority(State()))
      ensures !cbff ==> canId[..21] == old(canId[..21])
      ensures cbff ==> canId[..3] == old(canId[..3]) && canId[11..] == old(canId[11..])
    {
      if value >= 0x100 {
        return Fail(Overflow);
      }
      assert Pow2(8) == 0x100;
      var before := canId;
      if !cbff {
        canId := WriteField(canId, 21, 8, value);
        FieldFrame(canId, before, 21, 29, 0, 3);
      } else {
        canId := WriteField(canId, 3, 8, value);
        FieldFrame(canId, before, 3, 11, 0, 3);
      }
      r := Pass;
    }

    /** `da = value` writes ps whatever the PDU type; on type 2 it first warns (`warned`),
        since ps is then part of the pgn, and then fails like `ps = value` would. */
    method SetDa(value: nat) returns (warned: bool, r: Outcome<Error>)
      requires Valid()
      modifies this
      ensures Valid() && cbff == old(cbff)
      ensures warned <==> old(Type(State())) == Some(2)
      ensures r.Fail? <==> !cbff && value >= 0x100
      ensures r.Fail? ==> r.error == Overflow
      ensures cbff || r.Fail? ==> canId == old(canId)
      ensures !cbff && r.Pass? ==> Ps(State()) == Some(value) && Type(State()) == old(Type(State()))
      ensures !cbff && r.Pass? ==> Da(State()) == (if warned then Some(GLOBAL_ADDRESS) else Some(value))
      ensures !cbff && !warned ==> Pgn(State()) == old(Pgn(State()))
      ensures !cbff ==> canId[..13] == old(canId[..13]) && canId[21..] == old(canId[21..])
    {
      warned := !cbff && Type(State()) == Some(2);
      if !cbff && value >= 0x100 {
        return warned, Fail(Overflow);
      }
      assert Pow2(8) == 0x100;
      if !cbff {
        DaWrite(State(), value);
        canId := WriteField(canId, 13, 8, value);
      }
      r := Pass;
    }

    /** `pgn = value`: four slice writes of `int2ba(value, 24)` into edp, dp, pf and ps,
        with no check that the value reads back; a value over 24 bits is an `OverflowError`. */
    method SetPgn(value: nat) returns (r: Outcome<Error>)
      requires Valid()
      modifies this
      ensures Valid() && cbff == old(cbff)
      ensures r.Fail? <==> !cbff && value >= PGN_SETTER_LIMIT
      ensures r.Fail? ==> r.error == Overflow
      ensures cbff || r.Fail? ==> canId == old(canId)
      ensures !cbff && r.Pass? ==> canId == WritePgnBits(old(canId), value)
      ensures !cbff && r.Pass? ==> Pgn(State()) == Some(PgnReadBack(value))
      ensures canId[..3] == old(canId[..3])
      ensures !cbff ==> canId[21..] == old(canId[21..])
    {
      if !cbff && value >= PGN_SETTER_LIMIT {
        return Fail(Overflow);
      }
      if !cbff {
        ghost var before := State();
        PgnSliceWrites(canId, value);
        var pgnBits := NatToBits(value, 24);
        canId := Splice(canId, 3, pgnBits[6..7]);    // edp
        canId := Splice(canId, 4, pgnBits[7..8]);    // dp
        canId := Splice(canId, 5, pgnBits[8..16]);   // pf
        canId := Splice(canId, 13, pgnBits[16..24]); // ps
        PgnSetGet(before, value);
      }
      r := Pass;
    }
  }
}
