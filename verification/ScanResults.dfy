// Reading network scan results from an indication (parseNetworkScanResults of pkg/qmi/nas.go).

module ScanResults {
  import opened Bytes
  import opened Wrappers

  datatype Entry = Entry(mcc: string, mnc: string, description: string, status: Byte, rats: seq<Byte>)

  // ------------------------------------------------------------------ codes

  function DigitChar(d: nat): char
    requires d < 10
  {
    (48 + d) as char
  }

  function Digits(n: nat): string {
    if n < 10 then [DigitChar(n)] else Digits(n / 10) + [DigitChar(n % 10)]
  }

  // fmt.Sprintf("%03d", n)
  function Code(n: U16): string {
    if n < 10 then "00" + Digits(n) else if n < 100 then "0" + Digits(n) else Digits(n)
  }

  predicate AllDigits(s: string) {
    forall i | 0 <= i < |s| :: '0' <= s[i] <= '9'
  }

  // The number a string of digits stands for.
  function Value(s: string): nat
    requires AllDigits(s)
  {
    if s == [] then 0 else 10 * Value(s[..|s| - 1]) + (s[|s| - 1] as int - 48)
  }

  lemma {:induction false} DigitsReadBack(n: nat)
    ensures AllDigits(Digits(n))
    ensures Value(Digits(n)) == n
  {
    if n < 10 {
      assert Digits(n)[..0] == [];
    } else {
      DigitsReadBack(n / 10);
      assert Digits(n)[..|Digits(n)| - 1] == Digits(n / 10);
    }
  }

  lemma {:induction false} LeadingZero(s: string)
    requires AllDigits(s)
    ensures AllDigits("0" + s)
    ensures Value("0" + s) == Value(s)
  {
    if s == [] {
      assert "0" + s == "0" && "0"[..0] == [];
    } else {
      LeadingZero(s[..|s| - 1]);
      assert ("0" + s)[..|s|] == "0" + s[..|s| - 1];
    }
  }

  lemma CodeReadsBack(n: U16)
    ensures AllDigits(Code(n))
    ensures Value(Code(n)) == n
  {
    DigitsReadBack(n);
    LeadingZero(Digits(n));
    LeadingZero("0" + Digits(n));
    assert "00" + Digits(n) == "0" + ("0" + Digits(n));
  }

  // Short numbers are padded to three digits, longer ones not at all.
  lemma CodesHaveThreeDigits(n: U16)
    ensures |Code(n)| >= 3 && (|Code(n)| > 3 ==> Code(n)[0] != '0')
    ensures n < 1000 ==> |Code(n)| == 3
  {
    hide Digits;
    DigitCount(n);
  }

  lemma {:induction false} DigitCount(n: nat)
    ensures |Digits(n)| > 0 && (n > 0 ==> Digits(n)[0] != '0')
    ensures n < 10 <==> |Digits(n)| == 1
    ensures 10 <= n < 100 <==> |Digits(n)| == 2
    ensures 100 <= n < 1000 <==> |Digits(n)| == 3
  {
    if n >= 10 {
      DigitCount(n / 10);
    }
  }

  // Codes are equal exactly when the numbers are.
  lemma CodesAreInjective(m: U16, n: U16)
    ensures Code(m) == Code(n) <==> m == n
  {
    hide Code, Value;
    CodeReadsBack(m);
    CodeReadsBack(n);
  }

  // A string that a parsed entry can carry as its MCC or MNC.
  ghost predicate IsCode(s: string) {
    exists n: U16 :: s == Code(n)
  }

  ghost predicate Coded(e: Entry) {
    IsCode(e.mcc) && IsCode(e.mnc)
  }

  ghost predicate AllCoded(es: seq<Entry>) {
    forall i | 0 <= i < |es| :: Coded(es[i])
  }

  // ------------------------------------------------------------------ the list of networks

  function Text(data: seq<Byte>): string {
    seq(|data|, i requires 0 <= i < |data| => data[i] as char)
  }

  predicate RecordFits(data: seq<Byte>, offset: nat) {
    offset + 6 <= |data| && offset + 6 + data[offset + 5] <= |data|
  }

  function RecordEnd(data: seq<Byte>, offset: nat): (end: nat)
    requires RecordFits(data, offset)
    ensures offset < end <= |data|
  {
    offset + 6 + data[offset + 5]
  }

  function RecordAt(data: seq<Byte>, offset: nat): Entry
    requires RecordFits(data, offset)
  {
    Entry(Code(GetU16(data[offset], data[offset + 1])), Code(GetU16(data[offset + 2], data[offset + 3])),
          Text(data[offset + 6..RecordEnd(data, offset)]), data[offset + 4], [])
  }

  // At most n records, up to the first one that does not fit.
  function RecordsFrom(data: seq<Byte>, offset: nat, n: nat): seq<Entry>
    decreases n
  {
    if n == 0 || !RecordFits(data, offset) then []
    else [RecordAt(data, offset)] + RecordsFrom(data, RecordEnd(data, offset), n - 1)
  }

  method ReadRecords(data: seq<Byte>) returns (results: seq<Entry>)
    requires |data| >= 2
    ensures results == RecordsFrom(data, 2, GetU16(data[0], data[1]))
  {
    hide RecordAt, Code;
    results := [];
    var n := GetU16(data[0], data[1]);
    var offset: nat := 2;
    var i := 0;
    while i < n
      invariant 0 <= i <= n && offset <= |data|
      invariant results + RecordsFrom(data, offset, n - i) == RecordsFrom(data, 2, n)
    {
      if |data| - offset < 6 {
        break;
      }
      var descLen := data[offset + 5];
      if |data| - (offset + 6) < descLen {
        break;
      }
      results := results + [RecordAt(data, offset)];
      offset := offset + 6 + descLen;
      i := i + 1;
    }
  }

  // ------------------------------------------------------------------ the list of access technologies

  // The first entry of a network, or |es|.
  function FirstOf(es: seq<Entry>, mcc: string, mnc: string): (i: nat)
    ensures i <= |es|
    ensures i < |es| ==> es[i].mcc == mcc && es[i].mnc == mnc
    ensures forall j | 0 <= j < i :: !(es[j].mcc == mcc && es[j].mnc == mnc)
  {
    if es == [] || (es[0].mcc == mcc && es[0].mnc == mnc) then 0 else 1 + FirstOf(es[1..], mcc, mnc)
  }

  function AddRat(es: seq<Entry>, mcc: string, mnc: string, rat: Byte): seq<Entry> {
    var i := FirstOf(es, mcc, mnc);
    if i < |es| then es[i := es[i].(rats := es[i].rats + [rat])] else es
  }

  method AddRatInPlace(es: seq<Entry>, mcc: string, mnc: string, rat: Byte) returns (r: seq<Entry>)
    ensures r == AddRat(es, mcc, mnc, rat)
  {
    r := es;
    var j := 0;
    while j < |es|
      invariant 0 <= j <= |es| && r == es
      invariant forall k | 0 <= k < j :: !(es[k].mcc == mcc && es[k].mnc == mnc)
    {
      if es[j].mcc == mcc && es[j].mnc == mnc {
        return es[j := es[j].(rats := es[j].rats + [rat])];
      }
      j := j + 1;
    }
  }

  function AddRats(es: seq<Entry>, data: seq<Byte>, offset: nat, n: nat): seq<Entry>
    decreases n
  {
    if n == 0 || offset + 5 > |data| then es
    else
      var mcc, mnc := Code(GetU16(data[offset], data[offset + 1])), Code(GetU16(data[offset + 2], data[offset + 3]));
      AddRats(AddRat(es, mcc, mnc, data[offset + 4]), data, offset + 5, n - 1)
  }

  method ReadRats(before: seq<Entry>, data: seq<Byte>) returns (results: seq<Entry>)
    requires |data| >= 2
    ensures results == AddRats(before, data, 2, GetU16(data[0], data[1]))
  {
    hide Code, AddRat;
    results := before;
    var n := GetU16(data[0], data[1]);
    var offset: nat := 2;
    var i := 0;
    while i < n
      invariant 0 <= i <= n && offset <= |data|
      invariant AddRats(results, data, offset, n - i) == AddRats(before, data, 2, n)
    {
      if |data| - offset < 5 {
        break;
      }
      var mcc := Code(GetU16(data[offset], data[offset + 1]));
      var mnc := Code(GetU16(data[offset + 2], data[offset + 3]));
      results := AddRatInPlace(results, mcc, mnc, data[offset + 4]);
      offset := offset + 5;
      i := i + 1;
    }
  }

  // The two lists of an indication, each present or not.
  datatype Indication = Indication(networks: Option<seq<Byte>>, rats: Option<seq<Byte>>)

  function Results(ind: Indication): seq<Entry> {
    var data := if ind.networks.Some? then ind.networks.value else [];
    var results := if |data| >= 2 then RecordsFrom(data, 2, GetU16(data[0], data[1])) else [];
    if ind.rats.Some? && |ind.rats.value| >= 2 then
      AddRats(results, ind.rats.value, 2, GetU16(ind.rats.value[0], ind.rats.value[1]))
    else results
  }

  method ParseNetworkScanResults(ind: Indication) returns (results: seq<Entry>)
    ensures results == Results(ind)
  {
    hide RecordsFrom, AddRats;
    results := [];
    if ind.networks.Some? && |ind.networks.value| >= 2 {
      results := ReadRecords(ind.networks.value);
    }
    if ind.rats.Some? && |ind.rats.value| >= 2 {
      results := ReadRats(results, ind.rats.value);
    }
  }

  // ------------------------------------------------------------------ what parsing guarantees

  lemma {:induction false} RecordsAreCoded(data: seq<Byte>, offset: nat, n: nat)
    ensures AllCoded(RecordsFrom(data, offset, n))
    decreases n
  {
    hide Code;
    if n > 0 && RecordFits(data, offset) {
      RecordsAreCoded(data, RecordEnd(data, offset), n - 1);
      assert Coded(RecordAt(data, offset));
    }
  }

  // Access technologies are added to the entries without touching anything else.
  lemma {:induction false} RatsKeepTheNetworks(es: seq<Entry>, data: seq<Byte>, offset: nat, n: nat)
    ensures |AddRats(es, data, offset, n)| == |es|
    ensures forall i | 0 <= i < |es| ::
              && AddRats(es, data, offset, n)[i].(rats := []) == es[i].(rats := [])
              && es[i].rats <= AddRats(es, data, offset, n)[i].rats
    decreases n
  {
    hide Code, FirstOf;
    if n > 0 && offset + 5 <= |data| {
      var mcc, mnc := Code(GetU16(data[offset], data[offset + 1])), Code(GetU16(data[offset + 2], data[offset + 3]));
      RatsKeepTheNetworks(AddRat(es, mcc, mnc, data[offset + 4]), data, offset + 5, n - 1);
    }
  }

  // Whatever the modem sends, every parsed entry carries formatted codes.
  lemma ResultsAreCoded(ind: Indication)
    ensures AllCoded(Results(ind))
  {
    hide RecordsFrom, AddRats, IsCode;
    var data := if ind.networks.Some? then ind.networks.value else [];
    var results := if |data| >= 2 then RecordsFrom(data, 2, GetU16(data[0], data[1])) else [];
    if |data| >= 2 {
      RecordsAreCoded(data, 2, GetU16(data[0], data[1]));
    }
    if ind.rats.Some? && |ind.rats.value| >= 2 {
      var n := GetU16(ind.rats.value[0], ind.rats.value[1]);
      RatsKeepTheNetworks(results, ind.rats.value, 2, n);
      var after := AddRats(results, ind.rats.value, 2, n);
      forall i | 0 <= i < |after|
        ensures Coded(after[i])
      {
        assert Coded(results[i]);
        assert after[i].(rats := []).mcc == results[i].mcc && after[i].(rats := []).mnc == results[i].mnc;
      }
    }
  }

  // ------------------------------------------------------------------ the lists, written out

  // A network as the modem reports it.
  datatype Network = Network(mcc: U16, mnc: U16, status: Byte, description: seq<Byte>)

  function EncodeNetwork(w: Network): seq<Byte>
    requires |w.description| < 0x100
  {
    [w.mcc % 0x100, w.mcc / 0x100, w.mnc % 0x100, w.mnc / 0x100, w.status, |w.description|] + w.description
  }

  function EncodeNetworks(ws: seq<Network>): seq<Byte>
    requires forall w <- ws :: |w.description| < 0x100
  {
    if ws == [] then [] else EncodeNetwork(ws[0]) + EncodeNetworks(ws[1..])
  }

  function EntryOf(w: Network): Entry {
    Entry(Code(w.mcc), Code(w.mnc), Text(w.description), w.status, [])
  }

  function EntriesOf(ws: seq<Network>): seq<Entry> {
    seq(|ws|, i requires 0 <= i < |ws| => EntryOf(ws[i]))
  }

  lemma {:induction false} FirstRecord(before: seq<Byte>, w: Network, rest: seq<Byte>)
    requires |w.description| < 0x100
    ensures var data := before + (EncodeNetwork(w) + rest);
            && RecordFits(data, |before|) && RecordAt(data, |before|) == EntryOf(w)
            && RecordEnd(data, |before|) == |before| + |EncodeNetwork(w)|
  {
    hide Code, Text;
    var data := before + (EncodeNetwork(w) + rest);
    assert data[|before|..|before| + 6] == EncodeNetwork(w)[..6];
    assert data[|before| + 6..|before| + 6 + |w.description|] == w.description;
  }

  // The records of a list are read back, whatever surrounds them.
  lemma {:induction false} RecordsReadBack(before: seq<Byte>, ws: seq<Network>, rest: seq<Byte>)
    requires forall w <- ws :: |w.description| < 0x100
    ensures RecordsFrom(before + EncodeNetworks(ws) + rest, |before|, |ws|) == EntriesOf(ws)
    decreases |ws|
  {
    hide RecordFits, RecordAt, EntryOf, EncodeNetwork;
    if ws != [] {
      var data := before + EncodeNetworks(ws) + rest;
      var more := EncodeNetworks(ws[1..]) + rest;
      assert data == before + (EncodeNetwork(ws[0]) + more);
      FirstRecord(before, ws[0], more);
      RecordsReadBack(before + EncodeNetwork(ws[0]), ws[1..], rest);
      assert data == before + EncodeNetwork(ws[0]) + EncodeNetworks(ws[1..]) + rest;
      assert EntriesOf(ws) == [EntryOf(ws[0])] + EntriesOf(ws[1..]);
    }
  }

  // An access technology of a network.
  datatype Technology = Technology(mcc: U16, mnc: U16, rat: Byte)

  function EncodeTechnology(t: Technology): seq<Byte> {
    [t.mcc % 0x100, t.mcc / 0x100, t.mnc % 0x100, t.mnc / 0x100, t.rat]
  }

  function EncodeTechnologies(ts: seq<Technology>): seq<Byte> {
    if ts == [] then [] else EncodeTechnology(ts[0]) + EncodeTechnologies(ts[1..])
  }

  // The technologies listed for the network of an entry, in order.
  function Listed(ts: seq<Technology>, mcc: string, mnc: string): seq<Byte> {
    if ts == [] then []
    else (if Code(ts[0].mcc) == mcc && Code(ts[0].mnc) == mnc then [ts[0].rat] else []) + Listed(ts[1..], mcc, mnc)
  }

  // Each goes to the first entry of its network.
  function WithListed(es: seq<Entry>, ts: seq<Technology>): seq<Entry> {
    seq(|es|, i requires 0 <= i < |es| =>
      if FirstOf(es, es[i].mcc, es[i].mnc) == i then es[i].(rats := es[i].rats + Listed(ts, es[i].mcc, es[i].mnc))
      else es[i])
  }

  lemma {:induction false} FirstTechnology(before: seq<Byte>, t: Technology, rest: seq<Byte>)
    ensures var data, o := before + (EncodeTechnology(t) + rest), |before|;
            && o + 5 <= |data| && GetU16(data[o], data[o + 1]) == t.mcc
            && GetU16(data[o + 2], data[o + 3]) == t.mnc && data[o + 4] == t.rat
  {
    var data := before + (EncodeTechnology(t) + rest);
    assert data[|before|..|before| + 5] == EncodeTechnology(t);
  }

  lemma {:induction false} FirstIsUnique(es: seq<Entry>, mcc: string, mnc: string, i: nat)
    requires i < |es| && es[i].mcc == mcc && es[i].mnc == mnc
    requires forall j | 0 <= j < i :: !(es[j].mcc == mcc && es[j].mnc == mnc)
    ensures FirstOf(es, mcc, mnc) == i
  {
  }

  // Adding one technology keeps who comes first.
  lemma {:induction false} AddKeepsFirst(es: seq<Entry>, t: Technology, i: nat)
    requires i < |es|
    ensures var fs := AddRat(es, Code(t.mcc), Code(t.mnc), t.rat);
            && |fs| == |es| && fs[i].(rats := []) == es[i].(rats := [])
            && (FirstOf(fs, fs[i].mcc, fs[i].mnc) == i <==> FirstOf(es, es[i].mcc, es[i].mnc) == i)
            && fs[i].rats == es[i].rats +
                 if FirstOf(es, es[i].mcc, es[i].mnc) == i && Code(t.mcc) == es[i].mcc && Code(t.mnc) == es[i].mnc
                 then [t.rat] else []
  {
    hide FirstOf, Code;
    var fs := AddRat(es, Code(t.mcc), Code(t.mnc), t.rat);
    forall j | 0 <= j < |es| ensures fs[j].mcc == es[j].mcc && fs[j].mnc == es[j].mnc {
    }
    var k := FirstOf(es, es[i].mcc, es[i].mnc);
    FirstIsUnique(fs, es[i].mcc, es[i].mnc, k);
    assert es[i].rats + [] == es[i].rats;
  }

  lemma AddKeepsLength(es: seq<Entry>, t: Technology)
    ensures |AddRat(es, Code(t.mcc), Code(t.mnc), t.rat)| == |es|
  {
  }

  lemma {:induction false} AddThenRest(es: seq<Entry>, ts: seq<Technology>)
    requires ts != []
    ensures WithListed(AddRat(es, Code(ts[0].mcc), Code(ts[0].mnc), ts[0].rat), ts[1..]) == WithListed(es, ts)
  {
    hide AddRat, FirstOf, Code;
    var fs := AddRat(es, Code(ts[0].mcc), Code(ts[0].mnc), ts[0].rat);
    AddKeepsLength(es, ts[0]);
    forall i | 0 <= i < |es|
      ensures WithListed(fs, ts[1..])[i] == WithListed(es, ts)[i]
    {
      AddKeepsFirst(es, ts[0], i);
      assert fs[i] == fs[i].(rats := []).(rats := fs[i].rats);
      assert es[i] == es[i].(rats := []).(rats := es[i].rats);
    }
  }

  lemma {:induction false} TechnologiesReadBack(es: seq<Entry>, before: seq<Byte>, ts: seq<Technology>,
      rest: seq<Byte>)
    ensures AddRats(es, before + EncodeTechnologies(ts) + rest, |before|, |ts|) == WithListed(es, ts)
    decreases |ts|
  {
    hide AddRat, FirstOf, Code, EncodeTechnology;
    if ts == [] {
      assert WithListed(es, ts) == es by {
        NothingListed(es);
      }
    } else {
      var data := before + EncodeTechnologies(ts) + rest;
      var more := EncodeTechnologies(ts[1..]) + rest;
      assert data == before + (EncodeTechnology(ts[0]) + more);
      FirstTechnology(before, ts[0], more);
      assert |EncodeTechnology(ts[0])| == 5 by {
        FiveOctets(ts[0]);
      }
      TechnologiesReadBack(AddRat(es, Code(ts[0].mcc), Code(ts[0].mnc), ts[0].rat), before + EncodeTechnology(ts[0]),
                           ts[1..], rest);
      assert data == before + EncodeTechnology(ts[0]) + EncodeTechnologies(ts[1..]) + rest;
      AddThenRest(es, ts);
    }
  }

  lemma FiveOctets(t: Technology)
    ensures |EncodeTechnology(t)| == 5
  {
  }

  lemma {:induction false} NothingListed(es: seq<Entry>)
    ensures WithListed(es, []) == es
  {
    hide FirstOf;
    forall i | 0 <= i < |es| ensures WithListed(es, [])[i] == es[i] {
      assert es[i].rats + [] == es[i].rats;
    }
  }

  // What the modem encodes is what is parsed: a count and the networks, a count and the technologies,
  // whatever octets follow either; the technologies end up with the first network of their codes.
  lemma EncodedScansReadBack(ws: seq<Network>, ts: seq<Technology>, tail: seq<Byte>, end: seq<Byte>)
    requires forall w <- ws :: |w.description| < 0x100
    requires |ws| < 0x1_0000 && |ts| < 0x1_0000
    ensures var networks := [|ws| % 0x100, |ws| / 0x100] + EncodeNetworks(ws) + tail;
            var rats := [|ts| % 0x100, |ts| / 0x100] + EncodeTechnologies(ts) + end;
            && Results(Indication(Some(networks), Some(rats))) == WithListed(EntriesOf(ws), ts)
            && Results(Indication(Some(networks), None)) == EntriesOf(ws)
  {
    hide RecordsFrom, AddRats, EncodeNetworks, EncodeTechnologies, WithListed, EntriesOf;
    RecordsReadBack([|ws| % 0x100, |ws| / 0x100], ws, tail);
    TechnologiesReadBack(EntriesOf(ws), [|ts| % 0x100, |ts| / 0x100], ts, end);
  }
}
