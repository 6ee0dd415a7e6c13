// Trimming an SMS-DELIVER TPDU to the length it declares (pkg/manager/sms_trim.go). The layout is
// that of section 9.2.2.1 of 3GPP TS 23.040, the packing of septets that of section 6.1.2.1 of
// 3GPP TS 23.038. What a data coding scheme means is a parameter.

module SmsTrim {
  import opened Wrappers

  type Octet = bv8

  datatype Alphabet = SevenBit | EightBit | Ucs2

  // Which alphabet a data coding scheme octet selects, or None for a reserved one.
  type Lookup = Octet -> Option<Alphabet>

  // Where the user data of a TPDU starts, how many units it declares, how many octets they take and
  // how many bits of the last of these are padding.
  datatype Declared = Declared(start: nat, udl: nat, alphabet: Alphabet, octets: nat, padding: nat)

  function Number(b: Octet): (n: nat)
    ensures n < 0x100
  {
    b as int
  }

  function SeptetOctets(udl: nat): nat {
    (udl * 7 + 7) / 8
  }

  // The octets of the fixed fields before the protocol identifier.
  function Addressed(t: seq<Octet>): (n: nat)
    requires |t| >= 2
    ensures n >= 3
  {
    3 + (Number(t[1]) + 1) / 2
  }

  function OctetsFor(alphabet: Alphabet, udl: nat): nat {
    if alphabet.SevenBit? then SeptetOctets(udl) else udl
  }

  function PaddingFor(alphabet: Alphabet, udl: nat): int {
    if alphabet.SevenBit? then SeptetOctets(udl) * 8 - udl * 7 else 0
  }

  lemma PaddingIsSmall(alphabet: Alphabet, udl: nat)
    ensures 0 <= PaddingFor(alphabet, udl) < 8
    ensures PaddingFor(alphabet, udl) > 0 ==> OctetsFor(alphabet, udl) > 0
  {
  }

  // An SMS-DELIVER whose fixed fields are present, whose coding is known and which holds at least
  // the user data it declares.
  predicate IsDeliver(t: seq<Octet>, lookup: Lookup) {
    && |t| >= 3 && t[0] & 0x03 == 0
    && |t| >= Addressed(t) + 10
    && var alphabet := lookup(t[Addressed(t) + 1]);
       alphabet.Some? && |t| >= Addressed(t) + 10 + OctetsFor(alphabet.value, Number(t[Addressed(t) + 9]))
  }

  function DeclaredBy(t: seq<Octet>, lookup: Lookup): (d: Declared)
    requires IsDeliver(t, lookup)
    ensures d.start >= 13 && d.start + d.octets <= |t|
    ensures d.padding < 8 && (d.padding > 0 ==> d.octets > 0)
    ensures d.octets == OctetsFor(d.alphabet, d.udl) && d.padding == PaddingFor(d.alphabet, d.udl)
  {
    var udl := Number(t[Addressed(t) + 9]);
    var alphabet := lookup(t[Addressed(t) + 1]).value;
    PaddingIsSmall(alphabet, udl);
    Declared(Addressed(t) + 10, udl, alphabet, OctetsFor(alphabet, udl), PaddingFor(alphabet, udl))
  }

  method DeclaredLength(t: seq<Octet>, lookup: Lookup) returns (r: Option<(nat, Alphabet, nat)>)
    ensures r.Some? <==> IsDeliver(t, lookup)
    ensures r.Some? ==> var d := DeclaredBy(t, lookup); r.value == (d.start + d.octets, d.alphabet, d.udl)
  {
    hide Number;
    if |t| < 1 || t[0] & 0x03 != 0 {
      return None;
    }
    var i := 1;
    if i + 2 > |t| {
      return None;
    }
    var oaLen := Number(t[i]);
    i := i + 2;
    var oaOctets := (oaLen + 1) / 2;
    if i + oaOctets > |t| {
      return None;
    }
    i := i + oaOctets;
    if i + 10 > |t| {
      return None;
    }
    var dcs := t[i + 1];
    i := i + 2 + 7;
    var udl := Number(t[i]);
    i := i + 1;
    var alphabet := lookup(dcs);
    if alphabet.None? {
      return None;
    }
    var udOctets := udl;
    if alphabet.value == SevenBit {
      udOctets := (udl * 7 + 7) / 8;
    }
    var want := i + udOctets;
    if want > |t| {
      return None;
    }
    return Some((want, alphabet.value, udl));
  }

  // ------------------------------------------------------------------ bits

  // The octet with only bit j set.
  function Flag(j: nat): Octet
    requires j < 8
  {
    if j == 0 then 0x01 else if j == 1 then 0x02 else if j == 2 then 0x04 else if j == 3 then 0x08
    else if j == 4 then 0x10 else if j == 5 then 0x20 else if j == 6 then 0x40 else 0x80
  }

  // The octet 1 << (8 - padding) - 1.
  function Mask(padding: nat): Octet
    requires 0 < padding < 8
  {
    Flag(8 - padding) - 1
  }

  predicate OctetBit(b: Octet, j: nat)
    requires j < 8
  {
    b & Flag(j) != 0
  }

  lemma MaskClears(b: Octet, padding: nat, j: nat)
    requires 0 < padding < 8 && j < 8
    ensures OctetBit(b & Mask(padding), j) == (OctetBit(b, j) && j < 8 - padding)
  {
  }

  lemma MaskIsIdempotent(b: Octet, padding: nat)
    requires 0 < padding < 8
    ensures (b & Mask(padding)) & Mask(padding) == b & Mask(padding)
  {
  }

  // Bit n of packed user data.
  predicate Bit(ud: seq<Octet>, n: nat)
    requires n < 8 * |ud|
  {
    OctetBit(ud[n / 8], n % 8)
  }

  // Septet i of packed user data, least significant bit first.
  function Septet(ud: seq<Octet>, i: nat): seq<bool>
    requires 7 * i + 7 <= 8 * |ud|
  {
    seq(7, k requires 0 <= k < 7 => Bit(ud, 7 * i + k))
  }

  // ------------------------------------------------------------------ trimming

  function Trimmed(t: seq<Octet>, d: Declared): seq<Octet>
    requires d.start + d.octets <= |t| && d.padding < 8 && (d.padding > 0 ==> d.octets > 0)
  {
    var last := d.start + d.octets - 1;
    if d.padding > 0 then t[..last + 1][last := t[last] & Mask(d.padding)] else t[..last + 1]
  }

  // Trimming succeeds exactly on an SMS-DELIVER that holds what it declares; otherwise the octets
  // come back untouched.
  method Trim(t: seq<Octet>, lookup: Lookup) returns (trimmed: seq<Octet>, ok: bool)
    ensures ok <==> IsDeliver(t, lookup)
    ensures !ok ==> trimmed == t
    ensures ok ==> trimmed == Trimmed(t, DeclaredBy(t, lookup))
  {
    hide IsDeliver, DeclaredBy, Mask;
    var declared := DeclaredLength(t, lookup);
    if declared.None? {
      return t, false;
    }
    var (want, alphabet, udl) := declared.value;
    trimmed := t[..want];
    if alphabet == SevenBit && want > 0 {
      var udOctets := (udl * 7 + 7) / 8;
      var paddingBits := udOctets * 8 - udl * 7;
      if 0 < paddingBits < 8 {
        var mask := Mask(paddingBits);
        trimmed := trimmed[want - 1 := trimmed[want - 1] & mask];
      }
    }
    ok := true;
  }

  // Only the last octet of septet-coded user data can change, and then only by its padding bits.
  lemma TrimmedShape(t: seq<Octet>, d: Declared)
    requires d.start + d.octets <= |t| && d.padding < 8 && (d.padding > 0 ==> d.octets > 0)
    ensures |Trimmed(t, d)| == d.start + d.octets
    ensures forall i | 0 <= i < |Trimmed(t, d)| ::
              Trimmed(t, d)[i] == if d.padding > 0 && i == |Trimmed(t, d)| - 1 then t[i] & Mask(d.padding) else t[i]
  {
    hide Mask;
  }

  // The result is again an SMS-DELIVER that declares the same, now with nothing after it.
  lemma TrimmedIsDeliver(t: seq<Octet>, lookup: Lookup)
    requires IsDeliver(t, lookup)
    ensures var r := Trimmed(t, DeclaredBy(t, lookup));
            && IsDeliver(r, lookup) && DeclaredBy(r, lookup) == DeclaredBy(t, lookup)
            && |r| == DeclaredBy(r, lookup).start + DeclaredBy(r, lookup).octets
  {
    hide Trimmed, SeptetOctets, Number, OctetsFor, PaddingFor, Mask;
    var d := DeclaredBy(t, lookup);
    TrimmedShape(t, d);
    var r := Trimmed(t, d);
    assert r[0] == t[0] && r[1] == t[1];
    assert r[d.start - 9] == t[d.start - 9] && r[d.start - 1] == t[d.start - 1];
  }

  // Trimming twice is trimming once.
  lemma TrimIsIdempotent(t: seq<Octet>, lookup: Lookup)
    requires IsDeliver(t, lookup)
    ensures var r := Trimmed(t, DeclaredBy(t, lookup));
            IsDeliver(r, lookup) && Trimmed(r, DeclaredBy(r, lookup)) == r
  {
    hide IsDeliver, DeclaredBy, Trimmed, Mask;
    TrimmedIsDeliver(t, lookup);
    var d := DeclaredBy(t, lookup);
    var r := Trimmed(t, d);
    TrimmedShape(t, d);
    TrimmedShape(r, d);
    if d.padding > 0 {
      MaskIsIdempotent(t[|r| - 1], d.padding);
    }
    assert forall i | 0 <= i < |r| :: Trimmed(r, d)[i] == r[i];
  }

  // Every bit below 7 * udl keeps its value and every bit above is cleared.
  lemma BitsBelowTheEndAreKept(t: seq<Octet>, lookup: Lookup, n: nat)
    requires IsDeliver(t, lookup) && DeclaredBy(t, lookup).alphabet.SevenBit?
    requires n < 8 * DeclaredBy(t, lookup).octets
    ensures var d := DeclaredBy(t, lookup);
            && |Trimmed(t, d)| == d.start + d.octets
            && Bit(Trimmed(t, d)[d.start..], n) == (Bit(t[d.start..], n) && n < 7 * d.udl)
  {
    hide IsDeliver, DeclaredBy, Trimmed, Mask, OctetBit, SeptetOctets;
    var d := DeclaredBy(t, lookup);
    TrimmedShape(t, d);
    assert d.padding == d.octets * 8 - d.udl * 7;
    if d.padding > 0 && n / 8 == d.octets - 1 {
      MaskClears(t[d.start + d.octets - 1], d.padding, n % 8);
    }
  }

  // All declared septets unpack as before, and the rest of the TPDU is the same.
  lemma SeptetsArePreserved(t: seq<Octet>, lookup: Lookup, i: nat)
    requires IsDeliver(t, lookup) && DeclaredBy(t, lookup).alphabet.SevenBit?
    requires i < DeclaredBy(t, lookup).udl
    ensures var d := DeclaredBy(t, lookup);
            && |Trimmed(t, d)| == d.start + d.octets && 7 * i + 7 <= 8 * d.octets
            && Septet(Trimmed(t, d)[d.start..], i) == Septet(t[d.start..], i)
  {
    hide IsDeliver, DeclaredBy, Trimmed, Bit, Mask, SeptetOctets;
    var d := DeclaredBy(t, lookup);
    TrimmedShape(t, d);
    assert d.padding == d.octets * 8 - d.udl * 7;
    var before, after := Septet(t[d.start..], i), Septet(Trimmed(t, d)[d.start..], i);
    forall k | 0 <= k < 7
      ensures before[k] == after[k]
    {
      BitsBelowTheEndAreKept(t, lookup, 7 * i + k);
    }
  }

  // ------------------------------------------------------------------ the layout, written out

  // The fields of an SMS-DELIVER in their order. `digits` counts the semi-octets of the address, `udl`
  // the units of the user data.
  datatype Deliver = Deliver(
    first: Octet,
    digits: Octet,
    addressType: Octet,
    address: seq<Octet>,
    pid: Octet,
    dcs: Octet,
    timeStamp: seq<Octet>,
    udl: Octet,
    userData: seq<Octet>)

  function Encode(m: Deliver): seq<Octet> {
    [m.first, m.digits, m.addressType] + m.address + [m.pid, m.dcs] + m.timeStamp + [m.udl] + m.userData
  }

  // Two digits go into an octet, the last one possibly alone; seven-bit units are packed without gaps
  // into as few octets as hold them, others take an octet each.
  predicate WellFormed(m: Deliver, lookup: Lookup) {
    && m.first & 0x03 == 0
    && (2 * |m.address| == Number(m.digits) || 2 * |m.address| == Number(m.digits) + 1)
    && |m.timeStamp| == 7
    && lookup(m.dcs).Some?
    && (if lookup(m.dcs).value.SevenBit?
        then 7 * Number(m.udl) <= 8 * |m.userData| < 7 * Number(m.udl) + 8
        else |m.userData| == Number(m.udl))
  }

  // Where the fields are, whatever follows.
  lemma FieldsOf(m: Deliver, rest: seq<Octet>)
    requires |m.timeStamp| == 7
    ensures var t, a := Encode(m) + rest, |m.address|;
            && |Encode(m)| == a + 13 + |m.userData|
            && t[0] == m.first && t[1] == m.digits
            && t[a + 4] == m.dcs && t[a + 12] == m.udl
  {
  }

  // Such a TPDU, followed by anything, is one that is trimmed, and what it declares is what it is.
  lemma EncodingIsDeliver(m: Deliver, rest: seq<Octet>, lookup: Lookup)
    requires WellFormed(m, lookup)
    ensures var t := Encode(m) + rest;
            && IsDeliver(t, lookup)
            && DeclaredBy(t, lookup).start == |Encode(m)| - |m.userData|
            && DeclaredBy(t, lookup).octets == |m.userData|
            && DeclaredBy(t, lookup).udl == Number(m.udl)
            && DeclaredBy(t, lookup).alphabet == lookup(m.dcs).value
  {
    hide Encode, Number;
    FieldsOf(m, rest);
    var t := Encode(m) + rest;
    assert Addressed(t) == |m.address| + 3;
  }

  // Whether bit j of the last octet lies beyond the packed units.
  predicate IsPadding(m: Deliver, j: nat, lookup: Lookup)
    requires lookup(m.dcs).Some?
  {
    lookup(m.dcs).value.SevenBit? && m.userData != [] && 8 * (|m.userData| - 1) + j >= 7 * Number(m.udl)
  }

  // The octet with the bits that are padding cleared.
  predicate ClearedTo(m: Deliver, b: Octet, c: Octet, lookup: Lookup)
    requires lookup(m.dcs).Some?
  {
    forall j | 0 <= j < 8 :: OctetBit(c, j) == (OctetBit(b, j) && !IsPadding(m, j, lookup))
  }

  // Trimming it gives back the encoding, with only the bits of its last octet cleared that lie beyond
  // the packed units.
  lemma TrimGivesTheEncoding(m: Deliver, rest: seq<Octet>, lookup: Lookup)
    requires WellFormed(m, lookup)
    ensures var t, e := Encode(m) + rest, Encode(m);
            && IsDeliver(t, lookup)
            && var r := Trimmed(t, DeclaredBy(t, lookup));
               && |r| == |e| && |e| > 0
               && (forall i | 0 <= i < |e| - 1 :: r[i] == e[i])
               && ClearedTo(m, e[|e| - 1], r[|e| - 1], lookup)
  {
    hide IsDeliver, DeclaredBy, Trimmed, Mask, OctetBit, Number, ClearedTo;
    EncodingIsDeliver(m, rest, lookup);
    FieldsOf(m, rest);
    var t, e := Encode(m) + rest, Encode(m);
    hide Encode, WellFormed;
    var d := DeclaredBy(t, lookup);
    TrimmedShape(t, d);
    LastOctetIsCleared(m, e[|e| - 1], d, lookup);
  }

  lemma LastOctetIsCleared(m: Deliver, b: Octet, d: Declared, lookup: Lookup)
    requires lookup(m.dcs) == Some(d.alphabet) && d.udl == Number(m.udl) && d.octets == |m.userData|
    requires d.octets == OctetsFor(d.alphabet, d.udl) && d.padding == PaddingFor(d.alphabet, d.udl) && d.padding < 8
    ensures ClearedTo(m, b, if d.padding > 0 then b & Mask(d.padding) else b, lookup)
  {
    hide OctetBit, Mask, Number;
    var c := if d.padding > 0 then b & Mask(d.padding) else b;
    assert d.alphabet.SevenBit? ==> d.padding == 8 * d.octets - 7 * d.udl;
    hide SeptetOctets, OctetsFor, PaddingFor;
    forall j | 0 <= j < 8
      ensures OctetBit(c, j) == (OctetBit(b, j) && !IsPadding(m, j, lookup))
    {
      if d.padding > 0 {
        MaskClears(b, d.padding, j);
      }
    }
  }

  // The fields found in octets that are trimmed.
  function FieldsIn(t: seq<Octet>, lookup: Lookup): Deliver
    requires IsDeliver(t, lookup)
  {
    var d := DeclaredBy(t, lookup);
    var a := d.start - 10;
    Deliver(t[0], t[1], t[2], t[3..a], t[a], t[a + 1], t[a + 2..a + 9], t[a + 9], t[d.start..d.start + d.octets])
  }

  lemma HeadSlice(t: seq<Octet>, a: nat)
    requires 3 <= a <= |t|
    ensures t[..a] == [t[0], t[1], t[2]] + t[3..a]
  {
  }

  lemma TenOctets(t: seq<Octet>, a: nat)
    requires a + 10 <= |t|
    ensures t[a..a + 10] == [t[a], t[a + 1]] + t[a + 2..a + 9] + [t[a + 9]]
  {
  }

  lemma FourSlices(t: seq<Octet>, a: nat, b: nat, c: nat)
    requires a <= b <= c <= |t|
    ensures t == t[..a] + t[a..b] + t[b..c] + t[c..]
  {
  }

  // And nothing else is trimmed: the octets are those of a well-formed TPDU followed by something.
  lemma DeliversAreEncodings(t: seq<Octet>, lookup: Lookup)
    requires IsDeliver(t, lookup)
    ensures var d := DeclaredBy(t, lookup);
            && WellFormed(FieldsIn(t, lookup), lookup)
            && t == Encode(FieldsIn(t, lookup)) + t[d.start + d.octets..]
  {
    hide Number;
    var d := DeclaredBy(t, lookup);
    var m := FieldsIn(t, lookup);
    var a := d.start - 10;
    assert WellFormed(m, lookup);
    hide WellFormed, IsDeliver, DeclaredBy;
    HeadSlice(t, a);
    TenOctets(t, a);
    FourSlices(t, a, d.start, d.start + d.octets);
    assert Encode(m) == t[..a] + t[a..d.start] + m.userData;
  }
}
