/**
 * Reloading what saveToFile wrote: for a lot whose slot numbers are ints and
 * whose plates avoid the characters the format gives a meaning to,
 * loadFromFile followed by the corrected parse rebuilds the same lot;
 * parseJson as written does so for every such non-empty lot.
 */
module RoundTrip {
  import opened Wrappers
  import opened Domain
  import opened Text
  import opened Persistence

  /** No separator of the format and no line break. */
  predicate Inert(s: string) {
    forall i :: 0 <= i < |s| ==> s[i] != ',' && s[i] != '{' && s[i] != '}' && !IsLineBreak(s[i])
  }

  /** A plate the file format can carry: inert and without quotes. */
  predicate SafePlate(plate: string) {
    Inert(plate) && forall i :: 0 <= i < |plate| ==> plate[i] != '"'
  }

  predicate EncodableSlot(slot: Slot) {
    IntMin <= slot.number <= IntMax
    && (slot.occupant.Some? ==> SafePlate(slot.occupant.value.plate))
  }

  /** The lots the round trip is stated for. */
  predicate Encodable(lot: seq<Slot>) {
    forall i :: 0 <= i < |lot| ==> EncodableSlot(lot[i])
  }

  /** The record parseJson should build for a slot. */
  function RecordOf(slot: Slot): Record {
    match slot.occupant
    case None => Record(slot.number, Some(slot.tier), None, None)
    case Some(v) => Record(slot.number, Some(slot.tier), Some(v.plate), Some(v.tier))
  }

  /** The four fields of a record, as they are after trimming and joining. */
  function Body(slot: Slot): string {
    NumberField(slot) + "," + (TypeField(slot) + ",") + (PlateField(slot) + ",") + VehicleTypeField(slot)
  }

  // ------------------------------------------------------ characters

  lemma InertAppend(a: string, b: string)
    requires Inert(a) && Inert(b)
    ensures Inert(a + b)
  {
    assert forall i :: 0 <= i < |a + b| ==> (a + b)[i] == if i < |a| then a[i] else b[i - |a|];
  }

  lemma InertDigits(s: string)
    requires AllDigits(s)
    ensures Inert(s)
  {
    assert forall i :: 0 <= i < |s| ==> IsDigit(s[i]);
  }

  lemma InertNumber(n: int)
    ensures Inert(IntToString(n))
  {
    var r := IntToString(n);
    if n < 0 {
      InertDigits(r[1..]);
      assert forall i :: 1 <= i < |r| ==> r[i] == r[1..][i - 1];
    } else {
      InertDigits(r);
    }
  }

  lemma InertTierName(t: Tier)
    ensures Inert(TierName(t))
  {
  }

  /** Every field of an encodable slot is free of separators and line breaks. */
  lemma InertFields(slot: Slot)
    requires EncodableSlot(slot)
    ensures Inert(NumberField(slot)) && Inert(TypeField(slot))
    ensures Inert(PlateField(slot)) && Inert(VehicleTypeField(slot))
  {
    InertKeys();
    InertNumber(slot.number);
    InertAppend(NumberKey + " ", IntToString(slot.number));
    InertTierName(slot.tier);
    InertQuoted(TierName(slot.tier));
    InertAppend(TypeKey + " ", Quoted(TierName(slot.tier)));
    match slot.occupant
    case None =>
      InertAppend(PlateKey + " ", "null");
      InertAppend(VehicleTypeKey + " ", "null");
    case Some(v) =>
      InertQuoted(v.plate);
      InertAppend(PlateKey + " ", Quoted(v.plate));
      InertTierName(v.tier);
      InertQuoted(TierName(v.tier));
      InertAppend(VehicleTypeKey + " ", Quoted(TierName(v.tier)));
  }

  /** The keys, each followed by its space, and the literal null. */
  lemma InertKeys()
    ensures Inert(NumberKey + " ") && Inert(TypeKey + " ")
    ensures Inert(PlateKey + " ") && Inert(VehicleTypeKey + " ") && Inert("null")
  {
  }

  lemma InertQuoted(s: string)
    requires Inert(s)
    ensures Inert(Quoted(s))
  {
    assert Inert("\"");
    InertAppend("\"", s);
    InertAppend("\"" + s, "\"");
  }

  lemma UnbrokenAppend(a: string, b: string)
    requires NoLineBreak(a) && NoLineBreak(b)
    ensures NoLineBreak(a + b)
  {
    assert forall i :: 0 <= i < |a + b| ==> (a + b)[i] == if i < |a| then a[i] else b[i - |a|];
  }

  /** A field line: indentation, an inert field and possibly a comma. */
  lemma FieldLineUnbroken(n: nat, field: string, tail: string)
    requires Inert(field) && (tail == "" || tail == ",")
    ensures NoLineBreak(Spaces(n) + (field + tail)) && NoLineBreak(Spaces(n) + field)
  {
    UnbrokenAppend(field, tail);
    UnbrokenAppend(Spaces(n), field + tail);
    UnbrokenAppend(Spaces(n), field);
  }

  /** The lines of one encodable record hold no line break. */
  lemma RecordUnbroken(lot: seq<Slot>, k: nat)
    requires k < |lot| && EncodableSlot(lot[k])
    ensures AllUnbroken(RecordLines(lot, k))
  {
    var slot := lot[k];
    InertFields(slot);
    FieldLineUnbroken(6, NumberField(slot), ",");
    FieldLineUnbroken(6, TypeField(slot), ",");
    FieldLineUnbroken(6, PlateField(slot), ",");
    FieldLineUnbroken(6, VehicleTypeField(slot), "");
    UnbrokenAppend(Spaces(4), "{");
    UnbrokenAppend(Spaces(4), "}" + RecordSeparator(lot, k));
  }

  /** No line saveToFile prints for an encodable lot holds a line break. */
  lemma {:induction false} RecordsLinesUnbroken(lot: seq<Slot>, k: nat)
    requires forall i :: 0 <= i < |lot| ==> EncodableSlot(lot[i])
    ensures AllUnbroken(RecordsLines(lot, k))
    decreases |lot| - k
  {
    if k < |lot| {
      RecordUnbroken(lot, k);
      RecordsLinesUnbroken(lot, k + 1);
      AllUnbrokenAppend(RecordLines(lot, k), RecordsLines(lot, k + 1));
    }
  }

  predicate AllUnbroken(lines: seq<string>) {
    forall j :: 0 <= j < |lines| ==> NoLineBreak(lines[j])
  }

  lemma AllUnbrokenAppend(a: seq<string>, b: seq<string>)
    requires AllUnbroken(a) && AllUnbroken(b)
    ensures AllUnbroken(a + b)
  {
    assert forall j :: 0 <= j < |a + b| ==> (a + b)[j] == if j < |a| then a[j] else b[j - |a|];
  }

  lemma FrameUnbroken()
    ensures AllUnbroken(Header) && AllUnbroken(Footer)
  {
    UnbrokenAppend(Spaces(2), "\"slots\": [");
    UnbrokenAppend(Spaces(2), "]");
  }

  lemma LinesUnbroken(lot: seq<Slot>)
    requires Encodable(lot)
    ensures AllUnbroken(EncodeLines(lot))
  {
    RecordsLinesUnbroken(lot, 0);
    FrameUnbroken();
    AllUnbrokenAppend(Header, RecordsLines(lot, 0));
    AllUnbrokenAppend(Header + RecordsLines(lot, 0), Footer);
  }

  // ------------------------------------------------------ trim and join

  /** A string trim leaves unchanged. */
  predicate Tight(s: string) {
    s != [] && s[0] > ' ' && s[|s| - 1] > ' '
  }

  lemma TrimJoinSnoc(lines: seq<string>, line: string)
    ensures TrimJoin(lines + [line]) == TrimJoin(lines) + Trim(line)
  {
    SnocParts(lines, line);
  }

  lemma {:induction false} TrimJoinAppend(a: seq<string>, b: seq<string>)
    ensures TrimJoin(a + b) == TrimJoin(a) + TrimJoin(b)
    decreases |b|
  {
    if |b| == 0 {
      AppendNil(a);
    } else {
      var init, last := b[..|b| - 1], b[|b| - 1];
      SplitLast(a, b);
      TrimJoinSnoc(a + init, last);
      TrimJoinSnoc(init, last);
      TrimJoinAppend(a, init);
      AppendAssoc(TrimJoin(a), TrimJoin(init), Trim(last));
    }
  }

  lemma SplitLast<T>(a: seq<T>, b: seq<T>)
    requires |b| > 0
    ensures a + b == (a + b[..|b| - 1]) + [b[|b| - 1]]
    ensures b == b[..|b| - 1] + [b[|b| - 1]]
  {
  }

  /** The four fields start with a quote and end in a printable character. */
  lemma FieldsTight(slot: Slot)
    ensures Tight(NumberField(slot)) && Tight(TypeField(slot))
    ensures Tight(PlateField(slot)) && Tight(VehicleTypeField(slot))
    ensures NumberField(slot)[0] == '"' && VehicleTypeField(slot)[|VehicleTypeField(slot)| - 1] != '}'
  {
    var digits := IntToString(slot.number);
    assert digits[|digits| - 1] > ' ' by {
      if slot.number < 0 {
        assert digits[|digits| - 1] == digits[1..][|digits| - 2];
      }
    }
  }

  /** Appending an element to a sequence keeps the sequence as its prefix. */
  lemma SnocParts<T>(s: seq<T>, x: T)
    ensures |s + [x]| == |s| + 1 && (s + [x])[..|s|] == s && (s + [x])[|s|] == x
  {
  }

  /** The displays of up to six lines, each as the one before with a line appended. */
  lemma DisplaySnoc<T>(a: T, b: T, c: T, d: T, e: T, f: T)
    ensures [a] == [] + [a] && [a, b] == [a] + [b] && [a, b, c] == [a, b] + [c]
    ensures [a, b, c, d] == [a, b, c] + [d] && [a, b, c, d, e] == [a, b, c, d] + [e]
    ensures [a, b, c, d, e, f] == [a, b, c, d, e] + [f]
  {
  }

  lemma TrimJoinSix(l0: string, l1: string, l2: string, l3: string, l4: string, l5: string)
    ensures TrimJoin([l0, l1, l2, l3, l4, l5])
         == Trim(l0) + Trim(l1) + Trim(l2) + Trim(l3) + Trim(l4) + Trim(l5)
  {
    DisplaySnoc(l0, l1, l2, l3, l4, l5);
    TrimJoinSnoc([], l0);
    assert TrimJoin([l0]) == Trim(l0);
    TrimJoinSnoc([l0], l1);
    TrimJoinSnoc([l0, l1], l2);
    TrimJoinSnoc([l0, l1, l2], l3);
    TrimJoinSnoc([l0, l1, l2, l3], l4);
    TrimJoinSnoc([l0, l1, l2, l3, l4], l5);
  }

  /** Trimming the six lines of a record and joining them. */
  lemma RecordTrimmed(lot: seq<Slot>, i: nat)
    requires i < |lot|
    ensures TrimJoin(RecordLines(lot, i)) == "{" + Body(lot[i]) + ("}" + RecordSeparator(lot, i))
  {
    var slot := lot[i];
    var c1, c2, c3 := NumberField(slot) + ",", TypeField(slot) + ",", PlateField(slot) + ",";
    var c4, c5 := VehicleTypeField(slot), "}" + RecordSeparator(lot, i);
    assert Tight(c1) && Tight(c2) && Tight(c3) && Tight(c4) && Tight(c5) by {
      FieldsTight(slot);
      CommaTight(NumberField(slot));
      CommaTight(TypeField(slot));
      CommaTight(PlateField(slot));
      CloseTight(RecordSeparator(lot, i));
    }
    IndentedTrimmed(c1, c2, c3, c4, c5);
    Regroup("{", c1, c2, c3, c4, c5);
  }

  /** The six indented lines of a record, trimmed and joined. */
  lemma IndentedTrimmed(c1: string, c2: string, c3: string, c4: string, c5: string)
    requires Tight(c1) && Tight(c2) && Tight(c3) && Tight(c4) && Tight(c5)
    ensures TrimJoin([Spaces(4) + "{", Spaces(6) + c1, Spaces(6) + c2, Spaces(6) + c3, Spaces(6) + c4, Spaces(4) + c5])
         == "{" + c1 + c2 + c3 + c4 + c5
  {
    TrimJoinSix(Spaces(4) + "{", Spaces(6) + c1, Spaces(6) + c2, Spaces(6) + c3, Spaces(6) + c4, Spaces(4) + c5);
    TrimIndented(4, "{");
    TrimIndented(6, c1);
    TrimIndented(6, c2);
    TrimIndented(6, c3);
    TrimIndented(6, c4);
    TrimIndented(4, c5);
  }

  lemma CommaTight(f: string)
    requires Tight(f)
    ensures Tight(f + ",")
  {
  }

  /** The "}" that closes a record, with the "," after all but the last. */
  lemma CloseTight(sep: string)
    requires sep == "" || sep == ","
    ensures Tight("}" + sep)
  {
  }

  /** Six pieces of text, the middle four taken together. */
  lemma Regroup<T>(a: seq<T>, b: seq<T>, c: seq<T>, d: seq<T>, e: seq<T>, f: seq<T>)
    ensures a + b + c + d + e + f == a + (b + c + d + e) + f
  {
  }

  /** The bodies of the records saveToFile writes, one per slot. */
  function Bodies(lot: seq<Slot>): seq<string> {
    seq(|lot|, i requires 0 <= i < |lot| => Body(lot[i]))
  }

  /** The "," after every record body but the last. */
  function Delimiter(bodies: seq<string>, k: nat): string {
    if k < |bodies| - 1 then "," else ""
  }

  /** The records from position k on, as loadFromFile joins them. */
  function Joined(bodies: seq<string>, k: nat): string
    decreases |bodies| - k
  {
    if k >= |bodies| then []
    else "{" + bodies[k] + ("}" + Delimiter(bodies, k)) + Joined(bodies, k + 1)
  }

  lemma {:induction false} RecordsTrimmed(lot: seq<Slot>, k: nat)
    ensures TrimJoin(RecordsLines(lot, k)) == Joined(Bodies(lot), k)
    decreases |lot| - k
  {
    if k < |lot| {
      RecordTrimmed(lot, k);
      TrimJoinAppend(RecordLines(lot, k), RecordsLines(lot, k + 1));
      RecordsTrimmed(lot, k + 1);
      assert Bodies(lot)[k] == Body(lot[k]);
    }
  }

  const Opening: string := "{" + "\"slots\": ["

  lemma TrimJoinTwo(a: string, b: string)
    ensures TrimJoin([a, b]) == Trim(a) + Trim(b)
  {
    assert [a, b][..1] == [a] && [a][..0] == [];
    assert TrimJoin([a]) == Trim(a);
  }

  lemma HeaderTrimmed()
    ensures TrimJoin(Header) == Opening
  {
    assert Tight("{") && Tight("\"slots\": [");
    IndentedPairTrimmed("{", 2, "\"slots\": [");
  }

  /** Two tight lines, the second indented, trim and join to their concatenation. */
  lemma IndentedPairTrimmed(a: string, n: nat, b: string)
    requires Tight(a) && Tight(b)
    ensures TrimJoin([a, Spaces(n) + b]) == a + b
  {
    TrimJoinTwo(a, Spaces(n) + b);
    TrimTight(a);
    TrimIndented(n, b);
  }

  lemma FooterTrimmed()
    ensures TrimJoin(Footer) == "]}"
  {
    TrimJoinTwo(Spaces(2) + "]", "}");
    TrimIndented(2, "]");
    TrimTight("}");
  }

  /** What loadFromFile makes of the lines saveToFile printed. */
  lemma FileTrimmed(lot: seq<Slot>)
    ensures TrimJoin(EncodeLines(lot)) == Opening + Joined(Bodies(lot), 0) + "]}"
  {
    var rs := RecordsLines(lot, 0);
    TrimJoinAppend(Header + rs, Footer);
    TrimJoinAppend(Header, rs);
    RecordsTrimmed(lot, 0);
    HeaderTrimmed();
    FooterTrimmed();
  }

  // ------------------------------------------------------ the slots array

  lemma IndexOfAt(s: string, c: char, k: nat)
    requires k < |s| && s[k] == c && forall j :: 0 <= j < k ==> s[j] != c
    ensures IndexOf(s, c) == k
  {
  }

  lemma LastIndexOfAt(s: string, c: char, k: nat)
    requires k < |s| && s[k] == c && forall j :: k < j < |s| ==> s[j] != c
    ensures LastIndexOf(s, c) == k
  {
  }

  /** The text between "[" and "]" is the joined records, whatever they hold. */
  lemma SlotsTextOfFile(records: string)
    ensures SlotsText(Opening + records + "]}") == Some(records)
  {
    var json := Opening + records + "]}";
    assert forall j :: 0 <= j < 10 ==> json[j] == Opening[j];
    IndexOfAt(json, '[', 10);
    LastIndexOfAt(json, ']', |json| - 2);
    assert json[11..|json| - 2] == records;
  }

  // ------------------------------------------------------ splitting records

  /**
   * A record body as saveToFile writes it: no "}", a quote first and a last
   * character that trim keeps and that is not "}".
   */
  predicate Shaped(body: string) {
    (forall i :: 0 <= i < |body| ==> body[i] != '}')
    && |body| > 0 && body[0] == '"' && body[|body| - 1] > ' ' && body[|body| - 1] != '}'
  }

  predicate AllShaped(bodies: seq<string>) {
    forall i :: 0 <= i < |bodies| ==> Shaped(bodies[i])
  }

  lemma UnbracedAppend(a: string, b: string)
    requires (forall i :: 0 <= i < |a| ==> a[i] != '}') && (forall i :: 0 <= i < |b| ==> b[i] != '}')
    ensures forall i :: 0 <= i < |a + b| ==> (a + b)[i] != '}'
  {
    assert forall i :: 0 <= i < |a + b| ==> (a + b)[i] == if i < |a| then a[i] else b[i - |a|];
  }

  lemma BodyShaped(slot: Slot)
    requires EncodableSlot(slot)
    ensures Shaped(Body(slot))
  {
    InertFields(slot);
    FieldsTight(slot);
    var f1, f2, f3, f4 := NumberField(slot), TypeField(slot), PlateField(slot), VehicleTypeField(slot);
    UnbracedAppend(f1, ",");
    UnbracedAppend(f2, ",");
    UnbracedAppend(f3, ",");
    UnbracedAppend(f1 + ",", f2 + ",");
    UnbracedAppend(f1 + "," + (f2 + ","), f3 + ",");
    UnbracedAppend(f1 + "," + (f2 + ",") + (f3 + ","), f4);
  }

  lemma BodiesShaped(lot: seq<Slot>)
    requires Encodable(lot)
    ensures AllShaped(Bodies(lot))
  {
    forall i | 0 <= i < |lot|
      ensures Shaped(Bodies(lot)[i])
    {
      BodyShaped(lot[i]);
    }
  }

  /** Text before the entry at position i: the "{" of the array's first entry. */
  function EntryOpen(i: nat): string {
    if i == 0 then "{" else ""
  }

  /** Text after the entry at position i: the "}" of the array's last entry. */
  function EntryClose(bodies: seq<string>, i: nat): string {
    if i == |bodies| - 1 then "}" else ""
  }

  /** The piece split leaves for the record at position i. */
  function EntryText(bodies: seq<string>, i: nat): string
    requires i < |bodies|
  {
    EntryOpen(i) + bodies[i] + EntryClose(bodies, i)
  }

  /** The pieces for the records from position k on. */
  function EntryTexts(bodies: seq<string>, k: nat): (r: seq<string>)
    ensures |r| == |bodies| - k || (k > |bodies| && r == [])
    decreases |bodies| - k
  {
    if k >= |bodies| then [] else [EntryText(bodies, k)] + EntryTexts(bodies, k + 1)
  }

  /** The last record ends the text, with its closing "}". */
  lemma PiecesOfLast(bodies: seq<string>, k: nat)
    requires k == |bodies| - 1 && Shaped(bodies[k])
    ensures Pieces(RecordBreak, EntryOpen(k), bodies[k] + ("}" + Delimiter(bodies, k)) + Joined(bodies, k + 1))
         == EntryTexts(bodies, k)
  {
    var body := bodies[k];
    assert body + ("}" + Delimiter(bodies, k)) + Joined(bodies, k + 1) == body + "}";
    PiecesSkip(RecordBreak, EntryOpen(k), body, "}");
    assert Pieces(RecordBreak, EntryOpen(k) + body, "}") == [EntryOpen(k) + body + "}"] by {
      assert MatchLength(RecordBreak, "}") == 0;
      assert "}"[1..] == [];
    }
    assert EntryTexts(bodies, k) == [EntryText(bodies, k)];
  }

  /** A record followed by another ends at the "},{" between them. */
  lemma PiecesOfInner(bodies: seq<string>, k: nat)
    requires k < |bodies| - 1 && Shaped(bodies[k])
    requires Pieces(RecordBreak, EntryOpen(k + 1), bodies[k + 1] + ("}" + Delimiter(bodies, k + 1)) + Joined(bodies, k + 2))
          == EntryTexts(bodies, k + 1)
    ensures Pieces(RecordBreak, EntryOpen(k), bodies[k] + ("}" + Delimiter(bodies, k)) + Joined(bodies, k + 1))
         == EntryTexts(bodies, k)
  {
    var body := bodies[k];
    var rest := bodies[k + 1] + ("}" + Delimiter(bodies, k + 1)) + Joined(bodies, k + 2);
    var text := body + ("}" + Delimiter(bodies, k)) + Joined(bodies, k + 1);
    assert text == body + ("},{" + rest) by {
      JoinedOpens(bodies, k + 1);
      assert "}" + Delimiter(bodies, k) == "},";
      BreakBetween(body, rest);
    }
    assert Pieces(RecordBreak, EntryOpen(k), text) == [EntryOpen(k) + body] + Pieces(RecordBreak, EntryOpen(k + 1), rest) by {
      PiecesSkip(RecordBreak, EntryOpen(k), body, "},{" + rest);
      PiecesAtRecordBreak(EntryOpen(k) + body, rest);
      assert EntryOpen(k + 1) == [];
    }
    assert EntryTexts(bodies, k) == [EntryOpen(k) + body] + EntryTexts(bodies, k + 1) by {
      assert EntryText(bodies, k) == EntryOpen(k) + body;
    }
  }

  /** The "},{" between two records, regrouped as split meets it. */
  lemma BreakBetween(body: string, rest: string)
    ensures body + "}," + ("{" + rest) == body + ("},{" + rest)
  {
    AppendAssoc(body, "},", "{" + rest);
    AppendAssoc("},", "{", rest);
    assert "}," + "{" == "},{";
  }

  /** Splitting the joined records at each "},{" leaves one piece per record. */
  lemma {:induction false} PiecesOfJoined(bodies: seq<string>, k: nat)
    requires AllShaped(bodies) && k < |bodies|
    ensures Pieces(RecordBreak, EntryOpen(k), bodies[k] + ("}" + Delimiter(bodies, k)) + Joined(bodies, k + 1))
         == EntryTexts(bodies, k)
    decreases |bodies| - k
  {
    if k == |bodies| - 1 {
      PiecesOfLast(bodies, k);
    } else {
      PiecesOfJoined(bodies, k + 1);
      PiecesOfInner(bodies, k);
    }
  }

  lemma {:induction false} EntryTextsAt(bodies: seq<string>, k: nat, m: nat)
    requires k + m < |bodies|
    ensures EntryTexts(bodies, k)[m] == EntryText(bodies, k + m)
    decreases m
  {
    if m > 0 {
      EntryTextsAt(bodies, k + 1, m - 1);
    }
  }

  lemma EntryTextNotEmpty(bodies: seq<string>, i: nat)
    requires i < |bodies| && Shaped(bodies[i])
    ensures EntryText(bodies, i) != []
  {
    assert |EntryText(bodies, i)| >= |bodies[i]|;
  }

  /** split leaves all pieces when the last one is not empty. */
  lemma SplitKeepsPieces(sep: Separator, s: string)
    requires var ps := Pieces(sep, [], s); ps[|ps| - 1] != []
    ensures Split(sep, s) == Pieces(sep, [], s)
  {
  }

  /** split("\\},\\s*\\{") of the joined records: one piece per record, in order. */
  lemma SplitJoined(bodies: seq<string>)
    requires AllShaped(bodies) && |bodies| > 0
    ensures Split(RecordBreak, Joined(bodies, 0)) == EntryTexts(bodies, 0)
  {
    JoinedPieces(bodies);
    EntryTextsAt(bodies, 0, |bodies| - 1);
    EntryTextNotEmpty(bodies, |bodies| - 1);
    SplitKeepsPieces(RecordBreak, Joined(bodies, 0));
  }

  /** The joined records from position k open with the "{" of record k. */
  lemma JoinedOpens(bodies: seq<string>, k: nat)
    requires k < |bodies|
    ensures Joined(bodies, k) == "{" + (bodies[k] + ("}" + Delimiter(bodies, k)) + Joined(bodies, k + 1))
  {
    var b, e, c := bodies[k], "}" + Delimiter(bodies, k), Joined(bodies, k + 1);
    AppendAssoc("{", b, e);
    AppendAssoc("{", b + e, c);
  }

  lemma PiecesOpen(j: string, t: string, ps: seq<string>)
    requires j == "{" + t && Pieces(RecordBreak, EntryOpen(0), t) == ps
    ensures Pieces(RecordBreak, [], j) == ps
  {
    PiecesSkip(RecordBreak, [], "{", t);
    assert [] + "{" == EntryOpen(0);
  }

  /** The pieces of the joined records, before trailing empty ones are dropped. */
  lemma JoinedPieces(bodies: seq<string>)
    requires AllShaped(bodies) && |bodies| > 0
    ensures Pieces(RecordBreak, [], Joined(bodies, 0)) == EntryTexts(bodies, 0)
  {
    var k := 0;
    var t := bodies[k] + ("}" + Delimiter(bodies, k)) + Joined(bodies, k + 1);
    PiecesOfJoined(bodies, k);
    JoinedOpens(bodies, k);
    PiecesOpen(Joined(bodies, k), t, EntryTexts(bodies, k));
  }

  /** Dropping a leading "{" when present: a text that starts with a quote is left. */
  lemma DropOpen(open: string, t: string)
    requires (open == "{" || open == "") && |t| > 0 && t[0] == '"'
    ensures DropOpenBrace(open + t) == t
  {
    if open == "{" {
      assert (open + t)[..1] == "{";
      assert (open + t)[1..] == t;
    } else {
      assert open + t == t;
      assert t[..1] != "{" by { assert t[..1][0] == '"'; }
    }
  }

  /** Dropping a trailing "}" when present: a text that does not end in one is left. */
  lemma DropClose(t: string, close: string)
    requires (close == "}" || close == "") && |t| > 0 && t[|t| - 1] != '}'
    ensures DropCloseBrace(t + close) == t
  {
    var e := t + close;
    if close == "}" {
      assert e[|e| - 1..] == "}";
      assert e[..|e| - 1] == t;
    } else {
      assert e == t;
      assert e[|e| - 1..] != "}" by { assert e[|e| - 1..][0] == t[|t| - 1]; }
    }
  }

  /** EntryBody takes off the "{" and "}" the split left, and nothing else. */
  lemma EntryBodyOf(open: string, body: string, close: string)
    requires (open == "{" || open == "") && (close == "}" || close == "") && Shaped(body)
    ensures EntryBody(open + body + close) == body
  {
    EntryTrimmed(open, body, close);
    OpenDropped(open, body, close);
    DropClose(body, close);
  }

  lemma EntryTrimmed(open: string, body: string, close: string)
    requires (open == "{" || open == "") && (close == "}" || close == "") && Shaped(body)
    ensures Trim(open + body + close) == open + body + close
  {
    var e := open + body + close;
    assert e[0] == if open == "{" then '{' else '"';
    assert e[|e| - 1] == if close == "}" then '}' else body[|body| - 1];
    TrimTight(e);
  }

  lemma OpenDropped(open: string, body: string, close: string)
    requires (open == "{" || open == "") && (close == "}" || close == "") && Shaped(body)
    ensures DropOpenBrace(open + body + close) == body + close
  {
    assert open + body + close == open + (body + close);
    DropOpen(open, body + close);
  }

  // ------------------------------------------------------ parsing one record

  /** A comma-free field followed by a comma is one piece. */
  lemma CommaPiece(a: string, t: string)
    requires forall i :: 0 <= i < |a| ==> a[i] != ','
    ensures Pieces(Comma, [], a + ("," + t)) == [a] + Pieces(Comma, [], t)
  {
    PiecesSkip(Comma, [], a, "," + t);
    assert [] + a == a;
    PiecesAtComma(a, t);
  }

  /** split(",") of four comma-free fields joined by commas. */
  lemma SplitFour(a: string, b: string, c: string, d: string)
    requires forall i :: 0 <= i < |a| ==> a[i] != ','
    requires forall i :: 0 <= i < |b| ==> b[i] != ','
    requires forall i :: 0 <= i < |c| ==> c[i] != ','
    requires forall i :: 0 <= i < |d| ==> d[i] != ','
    requires d != []
    ensures Split(Comma, a + "," + (b + ",") + (c + ",") + d) == [a, b, c, d]
  {
    var t2 := c + ("," + d);
    var t1 := b + ("," + t2);
    SeparatedFour(a, b, c, d, ",");
    CommaPiece(a, t1);
    CommaPiece(b, t2);
    CommaPiece(c, d);
    LastPiece(d);
    DisplayFour(a, b, c, d);
  }

  /** A comma-free text is one piece. */
  lemma LastPiece(d: string)
    requires forall i :: 0 <= i < |d| ==> d[i] != ','
    ensures Pieces(Comma, [], d) == [d]
  {
    PiecesSkip(Comma, [], d, []);
    AppendNil(d);
  }

  /** Four pieces with a separator between each two, regrouped from the right. */
  lemma SeparatedFour<T>(a: seq<T>, b: seq<T>, c: seq<T>, d: seq<T>, sep: seq<T>)
    ensures a + sep + (b + sep) + (c + sep) + d == a + (sep + (b + (sep + (c + (sep + d)))))
  {
  }

  lemma DisplayFour<T>(a: T, b: T, c: T, d: T)
    ensures [a] + ([b] + ([c] + [d])) == [a, b, c, d]
  {
  }

  /** A quoted name ending in its only ":". */
  predicate KeyShaped(key: string) {
    |key| > 1 && key[0] == '"' && key[|key| - 1] == ':'
    && forall j :: 0 <= j < |key| - 1 ==> key[j] != ':'
  }

  /** A key ending in its only ":", a space and a value trim does not change. */
  lemma KeyedField(key: string, v: string)
    requires KeyShaped(key) && Tight(v)
    ensures Trim(key + " " + v) == key + " " + v
    ensures StartsWith(key + " " + v, key)
    ensures Trim(ValueText(key + " " + v)) == v
  {
    KeyedTrim(key, v);
    KeyedStart(key, v);
    KeyedValue(key, v);
  }

  lemma KeyedTrim(key: string, v: string)
    requires KeyShaped(key) && Tight(v)
    ensures Trim(key + " " + v) == key + " " + v
  {
    TrimTight(key + " " + v);
  }

  lemma KeyedStart(key: string, v: string)
    requires KeyShaped(key)
    ensures StartsWith(key + " " + v, key)
  {
    assert (key + " " + v)[..|key|] == key;
  }

  lemma KeyedValue(key: string, v: string)
    requires KeyShaped(key) && Tight(v)
    ensures Trim(ValueText(key + " " + v)) == v
  {
    var line := key + " " + v;
    IndexOfAt(line, ':', |key| - 1);
    assert Spaces(1) == " ";
    DropKey(key, " ", v);
    TrimIndented(1, v);
  }

  lemma DropKey<T>(key: seq<T>, gap: seq<T>, v: seq<T>)
    ensures (key + gap + v)[|key|..] == gap + v
  {
  }

  /** Two keys that differ at position j. */
  predicate DifferAt(key: string, other: string, j: nat) {
    j < |key| && j < |other| && key[j] != other[j]
  }

  /** The four keys of a record are quoted names ending in their only ":". */
  lemma KeysShaped()
    ensures KeyShaped(NumberKey) && KeyShaped(TypeKey) && KeyShaped(PlateKey) && KeyShaped(VehicleTypeKey)
  {
  }

  /** Each key differs from the keys parseJson tests before it. */
  lemma KeysDiffer()
    ensures DifferAt(TypeKey, NumberKey, 2)
    ensures DifferAt(PlateKey, NumberKey, 1) && DifferAt(PlateKey, TypeKey, 1)
    ensures DifferAt(VehicleTypeKey, NumberKey, 1) && DifferAt(VehicleTypeKey, TypeKey, 1)
    ensures DifferAt(VehicleTypeKey, PlateKey, 8)
  {
  }

  /** A line that starts with one key does not start with a key it differs from at j. */
  lemma OtherKey(key: string, v: string, other: string, j: nat)
    requires DifferAt(key, other, j)
    ensures !StartsWith(key + " " + v, other)
  {
    assert (key + " " + v)[j] == key[j];
  }

  lemma NumberFieldParsed(r: Record, slot: Slot)
    requires IntMin <= slot.number <= IntMax
    ensures ApplyField(r, NumberField(slot)) == Some(r.(number := slot.number))
  {
    var v := IntToString(slot.number);
    assert Tight(v) by {
      if slot.number < 0 {
        assert v[|v| - 1] == v[1..][|v| - 2];
      }
    }
    KeysShaped();
    KeyedField(NumberKey, v);
    ParseIntToString(slot.number);
  }

  lemma QuotedTight(s: string)
    ensures Tight(Quoted(s))
  {
  }

  predicate Unquoted(s: string) {
    forall i :: 0 <= i < |s| ==> s[i] != '"'
  }

  lemma TypeLineParsed(r: Record, name: string, t: Tier)
    requires Unquoted(name) && TierOf(name) == Some(t)
    ensures ApplyField(r, TypeKey + " " + Quoted(name)) == Some(r.(tier := Some(t)))
  {
    var v := Quoted(name);
    var line := TypeKey + " " + v;
    assert Trim(line) == line && StartsWith(line, TypeKey) && Trim(ValueText(line)) == v by {
      QuotedTight(name);
      KeysShaped();
      KeyedField(TypeKey, v);
    }
    assert !StartsWith(line, NumberKey) by {
      KeysDiffer();
      OtherKey(TypeKey, v, NumberKey, 2);
    }
    assert RemoveChar(v, '"') == name by {
      Unquote(name);
    }
  }

  lemma TypeFieldParsed(r: Record, slot: Slot)
    ensures ApplyField(r, TypeField(slot)) == Some(r.(tier := Some(slot.tier)))
  {
    TypeLineParsed(r, TierName(slot.tier), slot.tier);
  }

  /** The word null of a free slot, as a parameter so that the solver does not evaluate the line. */
  lemma PlateLineNull(r: Record, word: string)
    requires word == "null"
    ensures ApplyField(r, PlateKey + " " + word) == Some(r)
  {
    var line := PlateKey + " " + word;
    assert Trim(line) == line && StartsWith(line, PlateKey) && Trim(ValueText(line)) == word by {
      KeysShaped();
      KeyedField(PlateKey, word);
    }
    assert !StartsWith(line, NumberKey) && !StartsWith(line, TypeKey) by {
      KeysDiffer();
      OtherKey(PlateKey, word, NumberKey, 1);
      OtherKey(PlateKey, word, TypeKey, 1);
    }
  }

  lemma PlateLineQuoted(r: Record, plate: string)
    requires Unquoted(plate)
    ensures ApplyField(r, PlateKey + " " + Quoted(plate)) == Some(r.(plate := Some(plate)))
  {
    var v := Quoted(plate);
    var line := PlateKey + " " + v;
    assert Trim(line) == line && StartsWith(line, PlateKey) && Trim(ValueText(line)) == v by {
      QuotedTight(plate);
      KeysShaped();
      KeyedField(PlateKey, v);
    }
    assert !StartsWith(line, NumberKey) && !StartsWith(line, TypeKey) by {
      KeysDiffer();
      OtherKey(PlateKey, v, NumberKey, 1);
      OtherKey(PlateKey, v, TypeKey, 1);
    }
    assert v != "null" by {
      assert v[0] != "null"[0];
    }
    assert RemoveChar(v, '"') == plate by {
      Unquote(plate);
    }
  }

  lemma PlateFieldParsed(r: Record, slot: Slot)
    requires slot.occupant.Some? ==> SafePlate(slot.occupant.value.plate)
    ensures ApplyField(r, PlateField(slot))
         == Some(if slot.occupant.Some? then r.(plate := Some(slot.occupant.value.plate)) else r)
  {
    match slot.occupant
    case None => PlateLineNull(r, "null");
    case Some(v) => PlateLineQuoted(r, v.plate);
  }

  lemma VehicleTypeLineNull(r: Record, word: string)
    requires word == "null"
    ensures ApplyField(r, VehicleTypeKey + " " + word) == Some(r)
  {
    var line := VehicleTypeKey + " " + word;
    assert Trim(line) == line && StartsWith(line, VehicleTypeKey) && Trim(ValueText(line)) == word by {
      KeysShaped();
      KeyedField(VehicleTypeKey, word);
    }
    assert !StartsWith(line, NumberKey) && !StartsWith(line, TypeKey) && !StartsWith(line, PlateKey) by {
      KeysDiffer();
      OtherKey(VehicleTypeKey, word, NumberKey, 1);
      OtherKey(VehicleTypeKey, word, TypeKey, 1);
      OtherKey(VehicleTypeKey, word, PlateKey, 8);
    }
  }

  lemma VehicleTypeLineQuoted(r: Record, name: string, t: Tier)
    requires Unquoted(name) && TierOf(name) == Some(t)
    ensures ApplyField(r, VehicleTypeKey + " " + Quoted(name)) == Some(r.(vehicleTier := Some(t)))
  {
    var v := Quoted(name);
    var line := VehicleTypeKey + " " + v;
    assert Trim(line) == line && StartsWith(line, VehicleTypeKey) && Trim(ValueText(line)) == v by {
      QuotedTight(name);
      KeysShaped();
      KeyedField(VehicleTypeKey, v);
    }
    assert !StartsWith(line, NumberKey) && !StartsWith(line, TypeKey) && !StartsWith(line, PlateKey) by {
      KeysDiffer();
      OtherKey(VehicleTypeKey, v, NumberKey, 1);
      OtherKey(VehicleTypeKey, v, TypeKey, 1);
      OtherKey(VehicleTypeKey, v, PlateKey, 8);
    }
    assert v != "null" by {
      assert v[0] != "null"[0];
    }
    assert RemoveChar(v, '"') == name by {
      Unquote(name);
    }
  }

  lemma VehicleTypeFieldParsed(r: Record, slot: Slot)
    ensures ApplyField(r, VehicleTypeField(slot))
         == Some(if slot.occupant.Some? then r.(vehicleTier := Some(slot.occupant.value.tier)) else r)
  {
    match slot.occupant
    case None => VehicleTypeLineNull(r, "null");
    case Some(v) => VehicleTypeLineQuoted(r, TierName(v.tier), v.tier);
  }

  lemma ApplyFieldsSnoc(fields: seq<string>, f: string, r: Record)
    requires ApplyFields(fields) == Some(r)
    ensures ApplyFields(fields + [f]) == ApplyField(r, f)
  {
    assert (fields + [f])[..|fields|] == fields;
  }

  /** The four fields of an encodable slot give back its record. */
  lemma FieldsParsed(slot: Slot)
    requires EncodableSlot(slot)
    ensures ApplyFields([NumberField(slot), TypeField(slot), PlateField(slot), VehicleTypeField(slot)])
         == Some(RecordOf(slot))
  {
    var f1, f2, f3, f4 := NumberField(slot), TypeField(slot), PlateField(slot), VehicleTypeField(slot);
    var r1 := Blank.(number := slot.number);
    NumberFieldParsed(Blank, slot);
    ApplyFieldsSnoc([], f1, Blank);
    assert [] + [f1] == [f1];
    var r2 := r1.(tier := Some(slot.tier));
    TypeFieldParsed(r1, slot);
    ApplyFieldsSnoc([f1], f2, r1);
    assert [f1] + [f2] == [f1, f2];
    var r3 := if slot.occupant.Some? then r2.(plate := Some(slot.occupant.value.plate)) else r2;
    PlateFieldParsed(r2, slot);
    ApplyFieldsSnoc([f1, f2], f3, r2);
    assert [f1, f2] + [f3] == [f1, f2, f3];
    VehicleTypeFieldParsed(r3, slot);
    ApplyFieldsSnoc([f1, f2, f3], f4, r3);
    assert [f1, f2, f3] + [f4] == [f1, f2, f3, f4];
  }

  lemma CommaFree(s: string)
    requires Inert(s)
    ensures forall i :: 0 <= i < |s| ==> s[i] != ','
  {
  }

  /** split(",") of a record body and the field loop give back the slot's record. */
  lemma BodyParsed(slot: Slot)
    requires EncodableSlot(slot)
    ensures ApplyFields(Split(Comma, Body(slot))) == Some(RecordOf(slot))
  {
    InertFields(slot);
    var f1, f2, f3, f4 := NumberField(slot), TypeField(slot), PlateField(slot), VehicleTypeField(slot);
    CommaFree(f1);
    CommaFree(f2);
    CommaFree(f3);
    CommaFree(f4);
    assert f4[0] == VehicleTypeKey[0];
    SplitFour(f1, f2, f3, f4);
    FieldsParsed(slot);
  }

  /** The piece split leaves for a record parses to that record. */
  lemma EntryParsed(lot: seq<Slot>, i: nat)
    requires Encodable(lot) && i < |lot|
    ensures ParseEntry(EntryText(Bodies(lot), i)) == Some(RecordOf(lot[i]))
  {
    var bodies := Bodies(lot);
    BodyShaped(lot[i]);
    EntryBodyOf(EntryOpen(i), bodies[i], EntryClose(bodies, i));
    BodyParsed(lot[i]);
  }

  /** The entry loop succeeds with the records its entries parse to, in order. */
  lemma ParseEntriesSnoc(entries: seq<string>, x: string, rs: seq<Record>, r: Record)
    requires ParseEntries(entries) == Some(rs) && ParseEntry(x) == Some(r)
    ensures ParseEntries(entries + [x]) == Some(rs + [r])
  {
    assert (entries + [x])[..|entries|] == entries;
  }

  /** A prefix one longer is the shorter prefix and the next element. */
  lemma PrefixSnoc<T>(s: seq<T>, n: nat)
    requires 0 < n <= |s|
    ensures s[..n - 1] + [s[n - 1]] == s[..n]
  {
  }

  /** The entry loop over the first n entries of an encodable lot's file. */
  lemma {:induction false} PrefixParsed(lot: seq<Slot>, n: nat)
    requires Encodable(lot) && n <= |lot|
    ensures ParseEntries(EntryTexts(Bodies(lot), 0)[..n]) == Some(RecordsOf(lot)[..n])
    decreases n
  {
    var entries, rs := EntryTexts(Bodies(lot), 0), RecordsOf(lot);
    if n == 0 {
      assert entries[..0] == [];
    } else {
      PrefixParsed(lot, n - 1);
      EntryAtParsed(lot, n - 1);
      ParseEntriesSnoc(entries[..n - 1], entries[n - 1], rs[..n - 1], rs[n - 1]);
      PrefixSnoc(entries, n);
      PrefixSnoc(rs, n);
    }
  }

  /** The records of a lot, one per slot. */
  function RecordsOf(lot: seq<Slot>): seq<Record> {
    seq(|lot|, i requires 0 <= i < |lot| => RecordOf(lot[i]))
  }

  lemma SlotOfRecord(slot: Slot)
    ensures ToSlot(RecordOf(slot)) == Some(slot)
  {
  }

  /** Building slots from a lot's records gives back the lot. */
  lemma ToLotRecords(lot: seq<Slot>)
    ensures ToLot(RecordsOf(lot)) == Some(lot)
  {
    var rs := RecordsOf(lot);
    forall i | 0 <= i < |rs|
      ensures ToSlot(rs[i]) == Some(lot[i])
    {
      SlotOfRecord(lot[i]);
    }
    assert forall i :: 0 <= i < |rs| ==> rs[i].tier.Some?;
    assert ToLot(rs).Some?;
    var r := ToLot(rs).value;
    assert |r| == |lot|;
    assert forall i :: 0 <= i < |lot| ==> r[i] == lot[i];
    assert r == lot;
  }

  lemma EntryAtParsed(lot: seq<Slot>, i: nat)
    requires Encodable(lot) && i < |lot|
    ensures ParseEntry(EntryTexts(Bodies(lot), 0)[i]) == Some(RecordsOf(lot)[i])
  {
    EntryTextsAt(Bodies(lot), 0, i);
    EntryParsed(lot, i);
  }

  /** Every piece of the split records parses to its slot's record. */
  lemma EntriesParsed(lot: seq<Slot>)
    requires Encodable(lot)
    ensures ParseEntries(EntryTexts(Bodies(lot), 0)) == Some(RecordsOf(lot))
  {
    var entries, rs := EntryTexts(Bodies(lot), 0), RecordsOf(lot);
    PrefixParsed(lot, |lot|);
    assert entries[..|lot|] == entries;
    assert rs[..|lot|] == rs;
  }

  /** parseJson of the joined file text builds one record per slot, in order. */
  lemma JoinedParsed(lot: seq<Slot>)
    requires Encodable(lot) && |lot| > 0
    ensures SlotRecords(TrimJoin(EncodeLines(lot))) == Some(RecordsOf(lot))
  {
    var bodies := Bodies(lot);
    FileTrimmed(lot);
    SlotsTextOfFile(Joined(bodies, 0));
    BodiesShaped(lot);
    SplitJoined(bodies);
    EntriesParsed(lot);
  }

  /** The file of an empty lot has an empty slots array. */
  lemma EmptySlotsText(lot: seq<Slot>)
    requires lot == []
    ensures SlotsText(TrimJoin(EncodeLines(lot))) == Some([])
  {
    FileTrimmed(lot);
    assert Opening + Joined(Bodies(lot), 0) + "]}" == Opening + [] + "]}";
    SlotsTextOfFile([]);
  }

  /**
   * As written, parseJson reads the file of an empty lot as one record of
   * initial values: split of the empty text is one empty entry.
   */
  lemma EmptyLotAsWritten(lot: seq<Slot>)
    requires lot == []
    ensures SlotRecords(TrimJoin(EncodeLines(lot))) == Some([Blank])
  {
    EmptySlotsText(lot);
    var entry: string := [];
    assert Split(RecordBreak, []) == [entry];
    assert EntryBody(entry) == [];
    assert Split(Comma, []) == [entry];
    assert Trim(entry) == [];
    assert [entry][..0] == [];
    assert ApplyFields([entry]) == Some(Blank);
    assert ParseEntry(entry) == Some(Blank);
    assert ParseEntries([entry]) == Some([] + [Blank]);
    assert [] + [Blank] == [Blank];
    var json := TrimJoin(EncodeLines(lot));
    assert SlotRecords(json) == ParseEntries(Split(RecordBreak, []));
  }

  /** The corrected parse gives one record per slot for every encodable lot. */
  lemma SavedRecords(lot: seq<Slot>)
    requires Encodable(lot)
    ensures LoadRecords(TrimJoin(EncodeLines(lot))) == Some(RecordsOf(lot))
  {
    if lot == [] {
      EmptySlotsText(lot);
      assert RecordsOf(lot) == [];
    } else {
      JoinedParsed(lot);
      FileTrimmed(lot);
      SlotsTextOfFile(Joined(Bodies(lot), 0));
    }
  }

  /**
   * The round trip: the storage built from the file saveToFile wrote for an
   * encodable lot holds that same lot.
   */
  lemma LoadSaved(lot: seq<Slot>)
    requires Encodable(lot)
    ensures Load(Some(FileText(lot))) == Some(lot)
  {
    LinesUnbroken(lot);
    ReadPrintedLines(EncodeLines(lot));
    SavedRecords(lot);
    ToLotRecords(lot);
  }
}
