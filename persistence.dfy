/**
 * The text format of storage/FileBasedParkingStorage.java: what saveToFile
 * prints for a lot, and what loadFromFile and parseJson make of a file's
 * text. The format functions are specifications; the three loops of the
 * source (the println loop, the read-and-append loop and the nested parse
 * loop) are methods proved equal to them.
 */
module Persistence {
  import opened Wrappers
  import opened Domain
  import opened Text

  /** Enum.toString of a tier. */
  function TierName(t: Tier): (r: string)
    ensures TierOf(r) == Some(t)
  {
    match t
    case SMALL => "SMALL"
    case LARGE => "LARGE"
    case OVERSIZE => "OVERSIZE"
  }

  /** Enum.valueOf: None where valueOf throws. */
  function TierOf(name: string): Option<Tier> {
    if name == "SMALL" then Some(SMALL)
    else if name == "LARGE" then Some(LARGE)
    else if name == "OVERSIZE" then Some(OVERSIZE)
    else None
  }

  /** valueOf accepts exactly the names toString prints, and inverts it. */
  lemma TierNames(name: string, t: Tier)
    ensures TierOf(name) == Some(t) <==> TierName(t) == name
  {
  }

  // --------------------------------------------------------------- encoder

  const NumberKey: string := "\"slotNumber\":"
  const TypeKey: string := "\"supportedType\":"
  const PlateKey: string := "\"vehicleNumber\":"
  const VehicleTypeKey: string := "\"vehicleType\":"

  function Quoted(s: string): string {
    "\"" + s + "\""
  }

  function NumberField(slot: Slot): string {
    NumberKey + " " + IntToString(slot.number)
  }

  function TypeField(slot: Slot): string {
    TypeKey + " " + Quoted(TierName(slot.tier))
  }

  function PlateField(slot: Slot): string {
    match slot.occupant
    case Some(v) => PlateKey + " " + Quoted(v.plate)
    case None => PlateKey + " " + "null"
  }

  function VehicleTypeField(slot: Slot): string {
    match slot.occupant
    case Some(v) => VehicleTypeKey + " " + Quoted(TierName(v.tier))
    case None => VehicleTypeKey + " " + "null"
  }

  /** The "," that follows every record but the last. */
  function RecordSeparator(lot: seq<Slot>, i: nat): string {
    if i < |lot| - 1 then "," else ""
  }

  /** The lines saveToFile prints for the slot at position i. */
  function RecordLines(lot: seq<Slot>, i: nat): seq<string>
    requires i < |lot|
  {
    [ Spaces(4) + "{",
      Spaces(6) + (NumberField(lot[i]) + ","),
      Spaces(6) + (TypeField(lot[i]) + ","),
      Spaces(6) + (PlateField(lot[i]) + ","),
      Spaces(6) + VehicleTypeField(lot[i]),
      Spaces(4) + ("}" + RecordSeparator(lot, i)) ]
  }

  /** The record lines of the slots from position k on. */
  function RecordsLines(lot: seq<Slot>, k: nat): seq<string>
    decreases |lot| - k
  {
    if k >= |lot| then [] else RecordLines(lot, k) + RecordsLines(lot, k + 1)
  }

  const Header: seq<string> := ["{", Spaces(2) + "\"slots\": ["]
  const Footer: seq<string> := [Spaces(2) + "]", "}"]

  /** Every line saveToFile prints for the lot. */
  function EncodeLines(lot: seq<Slot>): seq<string> {
    Header + RecordsLines(lot, 0) + Footer
  }

  /** The file text after saveToFile. */
  function FileText(lot: seq<Slot>): string {
    PrintLines(EncodeLines(lot))
  }

  /** Reading the saved file line by line gives back the printed lines when none has a break. */
  lemma FileTextReadBack(lot: seq<Slot>)
    requires forall i :: 0 <= i < |EncodeLines(lot)| ==> NoLineBreak(EncodeLines(lot)[i])
    ensures ReadLines(FileText(lot)) == EncodeLines(lot)
  {
    ReadPrintedLines(EncodeLines(lot));
  }

  /**
   * PrintWriter.println: the line and then the line separator. The ghost
   * parameters keep the lines printed so far.
   */
  method Println(text: string, ghost printed: seq<string>, line: string)
    returns (text': string, ghost printed': seq<string>)
    requires text == PrintLines(printed)
    ensures printed' == printed + [line] && text' == PrintLines(printed')
    ensures text' == text + line + "\n"
  {
    text' := text + line + "\n";
    printed' := printed + [line];
    PrintLinesAppend(printed, [line]);
    PrintOne(line);
    AppendAssoc(text, line, "\n");
  }

  lemma TwoLines<T>(s: seq<T>, a: T, b: T)
    ensures s + [a] + [b] == s + [a, b] && [] + [a, b] == [a, b]
  {
  }

  lemma AppendSix<T>(s: seq<T>, a: T, b: T, c: T, d: T, e: T, f: T)
    ensures s + [a] + [b] + [c] + [d] + [e] + [f] == s + [a, b, c, d, e, f]
  {
  }

  /** The println calls of saveToFile for the slot at position i. */
  method PrintRecord(text: string, ghost printed: seq<string>, lot: seq<Slot>, i: nat)
    returns (text': string, ghost printed': seq<string>)
    requires i < |lot| && text == PrintLines(printed)
    ensures printed' == printed + RecordLines(lot, i) && text' == PrintLines(printed')
  {
    var slot := lot[i];
    var plateLine, typeLine;
    if slot.IsOccupied() {
      plateLine := Spaces(6) + (PlateKey + " " + Quoted(slot.occupant.value.plate) + ",");
      typeLine := Spaces(6) + (VehicleTypeKey + " " + Quoted(TierName(slot.occupant.value.tier)));
    } else {
      plateLine := Spaces(6) + (PlateKey + " " + "null" + ",");
      typeLine := Spaces(6) + (VehicleTypeKey + " " + "null");
    }
    var open, number, supported, close :=
      Spaces(4) + "{", Spaces(6) + (NumberField(slot) + ","), Spaces(6) + (TypeField(slot) + ","),
      Spaces(4) + ("}" + (if i < |lot| - 1 then "," else ""));
    assert [open, number, supported, plateLine, typeLine, close] == RecordLines(lot, i) by {
      assert plateLine == Spaces(6) + (PlateField(slot) + ",");
      assert typeLine == Spaces(6) + VehicleTypeField(slot);
      SixLines(RecordLines(lot, i), open, number, supported, plateLine, typeLine, close);
    }
    ghost var start := printed;
    text', printed' := Println(text, printed, open);
    text', printed' := Println(text', printed', number);
    text', printed' := Println(text', printed', supported);
    text', printed' := Println(text', printed', plateLine);
    text', printed' := Println(text', printed', typeLine);
    text', printed' := Println(text', printed', close);
    AppendSix(start, open, number, supported, plateLine, typeLine, close);
  }

  /** A sequence of six elements, equal to them one by one, is their display. */
  lemma SixLines<T>(s: seq<T>, a: T, b: T, c: T, d: T, e: T, f: T)
    requires |s| == 6 && s[0] == a && s[1] == b && s[2] == c && s[3] == d && s[4] == e && s[5] == f
    ensures [a, b, c, d, e, f] == s
  {
  }

  /** saveToFile: the println loop over the slots. */
  method SaveText(lot: seq<Slot>) returns (text: string)
    ensures text == FileText(lot)
  {
    ghost var printed: seq<string> := [];
    text := [];
    text, printed := Println(text, printed, "{");
    text, printed := Println(text, printed, Spaces(2) + "\"slots\": [");
    assert printed == Header by {
      TwoLines([], "{", Spaces(2) + "\"slots\": [");
    }
    var i := 0;
    while i < |lot|
      invariant 0 <= i <= |lot|
      invariant text == PrintLines(printed)
      invariant printed + RecordsLines(lot, i) == Header + RecordsLines(lot, 0)
    {
      ghost var before := printed;
      text, printed := PrintRecord(text, printed, lot, i);
      AppendAssoc(before, RecordLines(lot, i), RecordsLines(lot, i + 1));
      i := i + 1;
    }
    assert printed == Header + RecordsLines(lot, 0) by {
      assert RecordsLines(lot, i) == [];
      AppendNil(printed);
    }
    ghost var body := printed;
    text, printed := Println(text, printed, Spaces(2) + "]");
    text, printed := Println(text, printed, "}");
    TwoLines(body, Spaces(2) + "]", "}");
  }

  // --------------------------------------------------------------- decoder

  /** The local variables parseJson fills for one record; null is None. */
  datatype Record = Record(number: int, tier: Option<Tier>, plate: Option<string>, vehicleTier: Option<Tier>)

  /** Their initial values: slotNumber 0 and three nulls. */
  const Blank: Record := Record(0, None, None, None)

  /** line.substring(line.indexOf(":") + 1). */
  function ValueText(line: string): string {
    line[IndexOf(line, ':') + 1..]
  }

  /** One pass of the field loop of parseJson; None where it throws. */
  function ApplyField(r: Record, field: string): Option<Record> {
    var line := Trim(field);
    if StartsWith(line, NumberKey) then SetNumber(r, Trim(ValueText(line)))
    else if StartsWith(line, TypeKey) then SetTier(r, Trim(ValueText(line)))
    else if StartsWith(line, PlateKey) then SetPlate(r, Trim(ValueText(line)))
    else if StartsWith(line, VehicleTypeKey) then SetVehicleTier(r, Trim(ValueText(line)))
    else Some(r)
  }

  /** The slotNumber branch: parseInt of the value, which can throw. */
  function SetNumber(r: Record, v: string): (o: Option<Record>)
    ensures o.Some? ==> o.value == r.(number := o.value.number)
  {
    match ParseInt(v)
    case None => None
    case Some(n) => Some(r.(number := n))
  }

  /** The supportedType branch: valueOf of the unquoted value, which can throw. */
  function SetTier(r: Record, v: string): (o: Option<Record>)
    ensures o.Some? ==> o.value == r.(tier := o.value.tier)
  {
    match TierOf(RemoveChar(v, '"'))
    case None => None
    case Some(t) => Some(r.(tier := Some(t)))
  }

  /** The vehicleNumber branch: null leaves the plate unset, anything else is unquoted. */
  function SetPlate(r: Record, v: string): (o: Option<Record>)
    ensures o.Some? && o.value == r.(plate := o.value.plate)
  {
    if v == "null" then Some(r) else Some(r.(plate := Some(RemoveChar(v, '"'))))
  }

  /** The vehicleType branch: null leaves the type unset, anything else goes to valueOf. */
  function SetVehicleTier(r: Record, v: string): (o: Option<Record>)
    ensures o.Some? ==> o.value == r.(vehicleTier := o.value.vehicleTier)
  {
    if v == "null" then Some(r)
    else match TierOf(RemoveChar(v, '"'))
      case None => None
      case Some(t) => Some(r.(vehicleTier := Some(t)))
  }

  /**
   * Each branch of the field loop sets at most its own variable; only
   * parseInt and valueOf can throw, so a vehicleNumber line never fails; a
   * line that starts with none of the four keys changes nothing.
   */
  lemma ApplyFieldFrame(r: Record, field: string)
    ensures var o := ApplyField(r, field); var line := Trim(field);
            (o.None? ==> StartsWith(line, NumberKey) || StartsWith(line, TypeKey) || StartsWith(line, VehicleTypeKey))
            && (o.Some? ==> (o.value.number == r.number || StartsWith(line, NumberKey))
                            && (o.value.tier == r.tier || StartsWith(line, TypeKey))
                            && (o.value.plate == r.plate || StartsWith(line, PlateKey))
                            && (o.value.vehicleTier == r.vehicleTier || StartsWith(line, VehicleTypeKey)))
            && ((!StartsWith(line, NumberKey) && !StartsWith(line, TypeKey)
                 && !StartsWith(line, PlateKey) && !StartsWith(line, VehicleTypeKey)) ==> o == Some(r))
  {
  }

  /** The field loop over the comma-separated parts of one record. */
  function ApplyFields(fields: seq<string>): Option<Record> {
    if |fields| == 0 then Some(Blank)
    else match ApplyFields(fields[..|fields| - 1])
      case None => None
      case Some(r) => ApplyField(r, fields[|fields| - 1])
  }

  /** A record entry, trimmed and without its leading "{" and trailing "}". */
  function EntryBody(entry: string): string {
    DropCloseBrace(DropOpenBrace(Trim(entry)))
  }

  /** The entry without the "{" it starts with, if it does. */
  function DropOpenBrace(e: string): string {
    if StartsWith(e, "{") then e[1..] else e
  }

  /** The entry without the "}" it ends with, if it does. */
  function DropCloseBrace(e: string): string {
    if EndsWith(e, "}") then e[..|e| - 1] else e
  }

  function ParseEntry(entry: string): Option<Record> {
    ApplyFields(Split(Comma, EntryBody(entry)))
  }

  /** The entry loop of parseJson. */
  function ParseEntries(entries: seq<string>): (r: Option<seq<Record>>)
    ensures r.Some? ==> |r.value| == |entries|
  {
    if |entries| == 0 then Some([])
    else match ParseEntries(entries[..|entries| - 1])
      case None => None
      case Some(rs) =>
        match ParseEntry(entries[|entries| - 1])
        case None => None
        case Some(r) => Some(rs + [r])
  }

  /**
   * json.substring(json.indexOf("[") + 1, json.lastIndexOf("]")); None where
   * substring throws.
   */
  function SlotsText(json: string): Option<string> {
    var begin := IndexOf(json, '[') + 1;
    var end := LastIndexOf(json, ']');
    if end < begin then None else Some(json[begin..end])
  }

  /**
   * parseJson up to the slots it builds, as written: one record per entry,
   * and so one record of initial values for an empty slots array (the
   * README's Findings).
   */
  function SlotRecords(json: string): (r: Option<seq<Record>>)
    ensures r.Some? ==> SlotsText(json).Some? && |r.value| == |Split(RecordBreak, SlotsText(json).value)|
    ensures SlotsText(json) == Some([]) ==> r == Some([Blank])
  {
    match SlotsText(json)
    case None => None
    case Some(text) =>
      EmptyArrayEntries();
      ParseEntries(Split(RecordBreak, text))
  }

  /** An empty slots array splits into one empty entry, which parses to the initial values. */
  lemma EmptyArrayEntries()
    ensures ParseEntries(Split(RecordBreak, [])) == Some([Blank])
  {
    var entry: string := [];
    assert Split(RecordBreak, []) == [entry];
    assert EntryBody(entry) == [];
    assert Split(Comma, []) == [entry];
    assert Trim(entry) == [];
    assert [entry][..0] == [];
    assert ApplyFields([entry]) == Some(Blank);
    assert ParseEntry(entry) == Some(Blank);
    assert ParseEntries([entry]) == Some([] + [Blank]);
    assert [] + [Blank] == [Blank];
  }

  /** parseJson as evidently intended: an empty slots array holds no slots. */
  function LoadRecords(json: string): (r: Option<seq<Record>>)
    ensures SlotsText(json) == Some([]) ==> r == Some([])
    ensures SlotsText(json) != Some([]) ==> r == SlotRecords(json)
  {
    match SlotsText(json)
    case None => None
    case Some(text) => if text == [] then Some([]) else ParseEntries(Split(RecordBreak, text))
  }

  /** The field loops stop at the first field that throws. */
  lemma {:induction false} ApplyFieldsFails(fields: seq<string>, k: nat)
    requires k <= |fields| && ApplyFields(fields[..k]) == None
    ensures ApplyFields(fields) == None
    decreases |fields|
  {
    if k < |fields| {
      assert fields[..|fields| - 1][..k] == fields[..k];
      ApplyFieldsFails(fields[..|fields| - 1], k);
    } else {
      assert fields[..k] == fields;
    }
  }

  lemma {:induction false} ParseEntriesFails(entries: seq<string>, k: nat)
    requires k <= |entries| && ParseEntries(entries[..k]) == None
    ensures ParseEntries(entries) == None
    decreases |entries|
  {
    if k < |entries| {
      assert entries[..|entries| - 1][..k] == entries[..k];
      ParseEntriesFails(entries[..|entries| - 1], k);
    } else {
      assert entries[..k] == entries;
    }
  }

  /** The inner loop of parseJson, over the fields of one record. */
  method ParseFields(fields: seq<string>) returns (r: Option<Record>)
    ensures r == ApplyFields(fields)
  {
    var current := Blank;
    var l := 0;
    while l < |fields|
      invariant 0 <= l <= |fields|
      invariant ApplyFields(fields[..l]) == Some(current)
    {
      assert fields[..l + 1][..l] == fields[..l];
      var next := ApplyField(current, fields[l]);
      if next.None? {
        ApplyFieldsFails(fields, l + 1);
        return None;
      }
      current := next.value;
      l := l + 1;
    }
    assert fields[..l] == fields;
    r := Some(current);
  }

  /** The outer loop of parseJson, over the record entries. */
  method ParseEntryList(entries: seq<string>) returns (r: Option<seq<Record>>)
    ensures r == ParseEntries(entries)
  {
    var records: seq<Record> := [];
    var e := 0;
    while e < |entries|
      invariant 0 <= e <= |entries|
      invariant ParseEntries(entries[..e]) == Some(records)
    {
      assert entries[..e + 1][..e] == entries[..e];
      var record := ParseFields(Split(Comma, EntryBody(entries[e])));
      if record.None? {
        ParseEntriesFails(entries, e + 1);
        return None;
      }
      records := records + [record.value];
      e := e + 1;
    }
    assert entries[..e] == entries;
    r := Some(records);
  }

  /** parseJson: the entries between the first "[" and the last "]". */
  method ParseJson(json: string) returns (r: Option<seq<Record>>)
    ensures r == SlotRecords(json)
  {
    var begin := IndexOf(json, '[') + 1;
    var end := LastIndexOf(json, ']');
    if end < begin {
      return None;
    }
    r := ParseEntryList(Split(RecordBreak, json[begin..end]));
  }

  /** parseJson with the empty slots array read as an empty lot. */
  method ParseSlots(json: string) returns (r: Option<seq<Record>>)
    ensures r == LoadRecords(json)
  {
    var begin := IndexOf(json, '[') + 1;
    var end := LastIndexOf(json, ']');
    if end < begin {
      return None;
    }
    var text := json[begin..end];
    assert SlotsText(json) == Some(text);
    if end == begin {
      assert text == [];
      return Some([]);
    }
    assert |text| > 0;
    r := ParseEntryList(Split(RecordBreak, text));
  }

  // ------------------------------------------------------- loading a lot

  /** The line-by-line trim and append of loadFromFile. */
  function TrimJoin(lines: seq<string>): string {
    if |lines| == 0 then [] else TrimJoin(lines[..|lines| - 1]) + Trim(lines[|lines| - 1])
  }

  /** loadFromFile's read loop over the lines readLine returns. */
  method TrimAndJoin(lines: seq<string>) returns (json: string)
    ensures json == TrimJoin(lines)
  {
    json := [];
    var i := 0;
    while i < |lines|
      invariant 0 <= i <= |lines|
      invariant json == TrimJoin(lines[..i])
    {
      assert lines[..i + 1][..i] == lines[..i];
      json := json + Trim(lines[i]);
      i := i + 1;
    }
    assert lines[..i] == lines;
  }

  /**
   * The slot built from a record: occupied exactly when both vehicle fields
   * were present. A record without supportedType yields None (see the README).
   */
  function ToSlot(r: Record): (s: Option<Slot>)
    ensures s.Some? <==> r.tier.Some?
    ensures s.Some? ==> s.value.number == r.number && s.value.tier == r.tier.value
    ensures s.Some? ==> (s.value.IsOccupied() <==> r.plate.Some? && r.vehicleTier.Some?)
  {
    match r.tier
    case None => None
    case Some(t) =>
      var occupant := if r.plate.Some? && r.vehicleTier.Some?
                      then Some(Vehicle(r.plate.value, r.vehicleTier.value)) else None;
      Some(Slot(r.number, t, occupant))
  }

  function ToLot(rs: seq<Record>): (r: Option<seq<Slot>>)
    ensures r.Some? ==> |r.value| == |rs| && forall i :: 0 <= i < |rs| ==> ToSlot(rs[i]) == Some(r.value[i])
    ensures r.None? <==> exists i :: 0 <= i < |rs| && rs[i].tier.None?
  {
    if |rs| == 0 then Some([])
    else match (ToSlot(rs[0]), ToLot(rs[1..]))
      case (Some(s), Some(tail)) => Some([s] + tail)
      case _ => None
  }

  /**
   * The lot a storage starts with, given the text of its file (None when the
   * file does not exist); None where the source's constructor throws.
   */
  function Load(file: Option<string>): (r: Option<seq<Slot>>)
    ensures file.None? ==> r == Some([])
    ensures file.Some? && r.Some? ==>
              var rs := LoadRecords(TrimJoin(ReadLines(file.value)));
              rs.Some? && |r.value| == |rs.value| && forall i :: 0 <= i < |rs.value| ==> ToSlot(rs.value[i]) == Some(r.value[i])
  {
    match file
    case None => Some([])
    case Some(text) =>
      match LoadRecords(TrimJoin(ReadLines(text)))
      case None => None
      case Some(rs) => ToLot(rs)
  }

  /** loadFromFile: read the lines, trim and join them, parse and build the slots. */
  method LoadText(file: Option<string>) returns (r: Option<seq<Slot>>)
    ensures r == Load(file)
  {
    if file.None? {
      return Some([]);
    }
    var json := TrimAndJoin(ReadLines(file.value));
    var records := ParseSlots(json);
    if records.None? {
      return None;
    }
    r := ToLot(records.value);
  }
}
