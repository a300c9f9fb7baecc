# Parking lot: a verified model of the slot pool and its file format

This project models the core of a single-threaded parking-lot manager in Dafny:

- the parking slot and its tier-compatibility rule. SMALL, LARGE and OVERSIZE are ordered by containment.
- the default allocation policy: among the free slots that accommodate the vehicle, the one with the smallest number.
- the two storages that own the slot list:
  - the in-memory storage;
  - the file-backed storage, which writes the lot as JSON-shaped text after every successful change and parses it back when created.
- the service that runs the allocation policy and then asks the storage to occupy the chosen slot.

Modules, in dependency order:

- `Wrappers` (`Option`);
- `Domain` (tiers, vehicles, slots);
- `Allocation`;
- `Lot`: the slot list as a `seq<Slot>`. It holds the two invariants (dense numbering and compatible occupants), the query functions, the transition function of every storage operation, and the two shared loops (block initialisation and renumbering);
- `InMemoryStorage` and `FileStorage`: classes whose `slots` field the methods reassign. Each method is proved against the `Lot` transition it implements;
- `Text`: the Java `String` operations the file format relies on (`trim`, `indexOf`, `lastIndexOf`, `split` with the two patterns used, `replace`, `Integer.parseInt`, `Integer.toString`, `println`, `readLine`);
- `Persistence`: the encoder of `saveToFile`; the reading and parsing of `loadFromFile` and `parseJson`, as specification functions; and their loops, as methods proved equal to those functions;
- `RoundTrip`: the proof that reloading a saved lot gives the same lot back;
- `Service`.

A slot is a value, so setting its occupant writes the updated slot back at its position in the lot. The source's `parkVehicle(vehicle, slot)` receives the slot object itself, and the model passes its position instead. The file is the field `file: Option<string>`: the file's text, or `None` while no file exists. Saving replaces it.

## Model

| member | source | states |
|---|---|---|
| Domain.Slot.CanAccommodate | src/main/java/com/parkinglot/domain/ParkingSlot.java:33-44 | a slot accepts exactly the tiers whose rank is at most its own tier's rank |
| Domain.AccommodationTable | src/main/java/com/parkinglot/domain/ParkingSlot.java:34-40 | the switch. A SMALL slot takes only SMALL, a LARGE slot takes everything but OVERSIZE, and an OVERSIZE slot takes every tier |
| Domain.AccommodationMonotone | src/main/java/com/parkinglot/domain/ParkingSlot.java:33-44 | every slot accepts its own tier, and a slot of larger tier accepts whatever a smaller one accepts |
| Domain.Slot.IsOccupied | src/main/java/com/parkinglot/domain/ParkingSlot.java:29-31 | an occupied slot holds its vehicle's plate, and a free slot holds no plate at all |
| Domain.Slot.WithOccupant | src/main/java/com/parkinglot/domain/ParkingSlot.java:25-31 | setParkedVehicle changes only the occupant. Number and tier stay, and the slot is occupied exactly when the new occupant is present |
| Allocation.FindSlot | src/main/java/com/parkinglot/strategy/DefaultSlotAllocationStrategy.java:12-14 | the result is a slot of the input that is free and accommodates the tier, with the least slot number of all such slots; ties keep the earlier one. None exactly when no slot is eligible |
| Allocation.FindSlotInNumberedLot | src/main/java/com/parkinglot/strategy/DefaultSlotAllocationStrategy.java:12-14 | in a lot numbered 1..N, no slot before the chosen one is eligible |
| Allocation.FindSlotExamples | src/test/java/com/parkinglot/strategy/DefaultSlotAllocationStrategyTest.java:14-41 | for [SMALL#1, LARGE#2], a SMALL request takes position 0 and a LARGE one position 1; an occupied lot yields none |
| Lot.FindByPlate | src/main/java/com/parkinglot/storage/InMemoryParkingStorage.java:34-38 | the first position whose slot holds the plate; None exactly when no slot holds it |
| Lot.FindByNumber | src/main/java/com/parkinglot/storage/InMemoryParkingStorage.java:61-63 | the first position with that slot number; None exactly when there is none |
| Lot.FindByNumberDense | src/main/java/com/parkinglot/storage/InMemoryParkingStorage.java:61-72 | in a densely numbered lot, slot n is found at position n - 1, which is where editSlot writes |
| Lot.Initial | src/main/java/com/parkinglot/storage/InMemoryParkingStorage.java:14-26 | the lot has one slot per requested slot. Position i holds a free slot numbered i + 1, of tier SMALL, then LARGE, then OVERSIZE by block, and the lot is valid |
| Lot.BuildSlots | src/main/java/com/parkinglot/storage/InMemoryParkingStorage.java:15-25 | the three counter-driven add loops build exactly Initial |
| Lot.Renumbered | src/main/java/com/parkinglot/storage/InMemoryParkingStorage.java:91-97 | the renumbered list is dense and keeps every slot's tier and occupant |
| Lot.Renumber | src/main/java/com/parkinglot/storage/InMemoryParkingStorage.java:91-97 | the index loop that rebuilds each slot computes exactly Renumbered |
| Lot.RemoveAt | src/main/java/com/parkinglot/storage/InMemoryParkingStorage.java:89 | List.remove: one slot fewer. The slots before the position are kept, and the later ones move down by one |
| Lot.Occupy | src/main/java/com/parkinglot/storage/InMemoryParkingStorage.java:41-47 | succeeds iff the slot is free and accommodates the vehicle. On success only that slot changes, and it holds the vehicle; on failure nothing changes. Validity is kept |
| Lot.Vacate | src/main/java/com/parkinglot/storage/InMemoryParkingStorage.java:50-57 | succeeds iff some slot holds the plate. Only the first such slot is cleared; otherwise nothing changes. Validity is kept |
| Lot.Retier | src/main/java/com/parkinglot/storage/InMemoryParkingStorage.java:60-76 | succeeds iff slot n exists and is free. Then position n - 1 becomes a free slot of the new tier with the same number; otherwise nothing changes. Validity is kept |
| Lot.Delete | src/main/java/com/parkinglot/storage/InMemoryParkingStorage.java:79-101 | fails without change when slot n is missing or occupied. Otherwise the lot has one slot fewer and is dense, and occupants still fit |
| Lot.DeleteShifts | src/main/java/com/parkinglot/storage/InMemoryParkingStorage.java:89-97 | after deleting slot n, the slots before n are unchanged, and each former slot m > n is slot m - 1 with its tier and occupant |
| Lot.Status | src/main/java/com/parkinglot/service/ParkingLotService.java:40-44 | membership only: a slot is listed iff it is an occupied slot of the lot, and the list is empty exactly when no slot is occupied. The order and one entry per occupied slot are stated by StatusInOrder and, for dense lots, StatusOfLot |
| Lot.StatusInOrder | src/main/java/com/parkinglot/service/ParkingLotService.java:40-44 | the status of a lot with increasing numbers has increasing numbers |
| Lot.StatusOfLot | src/main/java/com/parkinglot/service/ParkingLotService.java:40-44 | for a dense lot: exactly the occupied slots, in ascending number |
| Lot.VacateLeavesStatus | src/test/java/com/parkinglot/integration/ParkingLotIntegrationTest.java:21-26 | a plate held by at most one slot leaves the status view when it exits |
| InMemoryStorage.InMemoryParkingStorage.constructor | src/main/java/com/parkinglot/storage/InMemoryParkingStorage.java:11 | a new storage holds an empty, valid lot |
| InMemoryStorage.InMemoryParkingStorage.InitializeSlots | src/main/java/com/parkinglot/storage/InMemoryParkingStorage.java:14-26 | the lot becomes Initial(small, large, oversize), discarding all earlier slots |
| InMemoryStorage.InMemoryParkingStorage.GetAllSlots | src/main/java/com/parkinglot/storage/InMemoryParkingStorage.java:29-31 | the slots, in lot order |
| InMemoryStorage.InMemoryParkingStorage.FindSlotByVehicleNumber | src/main/java/com/parkinglot/storage/InMemoryParkingStorage.java:34-38 | the first slot holding the plate; None exactly when there is none |
| InMemoryStorage.InMemoryParkingStorage.ParkVehicle | src/main/java/com/parkinglot/storage/InMemoryParkingStorage.java:41-47 | outcome and new lot are Lot.Occupy of the old lot; validity is kept |
| InMemoryStorage.InMemoryParkingStorage.ExitVehicle | src/main/java/com/parkinglot/storage/InMemoryParkingStorage.java:50-57 | outcome and new lot are Lot.Vacate of the old lot; validity is kept |
| InMemoryStorage.InMemoryParkingStorage.EditSlot | src/main/java/com/parkinglot/storage/InMemoryParkingStorage.java:60-76 | outcome and new lot are Lot.Retier of the old lot; validity is kept |
| InMemoryStorage.InMemoryParkingStorage.DeleteSlot | src/main/java/com/parkinglot/storage/InMemoryParkingStorage.java:79-101 | outcome and new lot are Lot.Delete of the old lot; validity is kept |
| FileStorage.FileBasedParkingStorage.Open | src/main/java/com/parkinglot/storage/FileBasedParkingStorage.java:17-20 | the constructor. It fails exactly when loading the file fails. Otherwise it is a fresh storage on the same file whose slots are the loaded lot, which is empty when no file exists |
| FileStorage.FileBasedParkingStorage.Reopen | src/test/java/com/parkinglot/storage/FileBasedParkingStorageTest.java:41-43 | a storage opened on a file saved from an encodable lot holds that same lot |
| FileStorage.FileBasedParkingStorage.Save | src/main/java/com/parkinglot/storage/FileBasedParkingStorage.java:117-140 | the file becomes the printed slots. The slots do not change, and the file reloads to them when the lot is encodable |
| FileStorage.FileBasedParkingStorage.InitializeSlots | src/main/java/com/parkinglot/storage/FileBasedParkingStorage.java:23-36 | the lot becomes Initial(small, large, oversize), and it is saved |
| FileStorage.FileBasedParkingStorage.GetAllSlots | src/main/java/com/parkinglot/storage/FileBasedParkingStorage.java:39-41 | the slots, in lot order |
| FileStorage.FileBasedParkingStorage.FindSlotByVehicleNumber | src/main/java/com/parkinglot/storage/FileBasedParkingStorage.java:44-48 | the first slot holding the plate; None exactly when there is none |
| FileStorage.FileBasedParkingStorage.ParkVehicle | src/main/java/com/parkinglot/storage/FileBasedParkingStorage.java:51-58 | Lot.Occupy of the old lot. The file is saved on success and untouched on failure |
| FileStorage.FileBasedParkingStorage.ExitVehicle | src/main/java/com/parkinglot/storage/FileBasedParkingStorage.java:61-69 | Lot.Vacate of the old lot. The file is saved on success and untouched on failure |
| FileStorage.FileBasedParkingStorage.EditSlot | src/main/java/com/parkinglot/storage/FileBasedParkingStorage.java:72-89 | Lot.Retier of the old lot. The file is saved on success and untouched on failure |
| FileStorage.FileBasedParkingStorage.DeleteSlot | src/main/java/com/parkinglot/storage/FileBasedParkingStorage.java:92-115 | Lot.Delete of the old lot. The file is saved on success and untouched on failure |
| Persistence.TierName | src/main/java/com/parkinglot/storage/FileBasedParkingStorage.java:125 | the printed name of a tier is read back by valueOf as the same tier |
| Persistence.SaveText | src/main/java/com/parkinglot/storage/FileBasedParkingStorage.java:117-140 | the println loop writes exactly FileText: header, six lines per slot in lot order, and footer |
| Persistence.PrintRecord | src/main/java/com/parkinglot/storage/FileBasedParkingStorage.java:122-133 | the six lines of one slot's record. A free slot prints null for both vehicle fields, and a comma follows every record but the last |
| Persistence.ParseFields | src/main/java/com/parkinglot/storage/FileBasedParkingStorage.java:168-190 | the field loop computes ApplyFields, failing where parseInt or valueOf throws |
| Persistence.ParseEntryList | src/main/java/com/parkinglot/storage/FileBasedParkingStorage.java:162-198 | the entry loop computes ParseEntries, one record per entry in order |
| Persistence.ParseJson | src/main/java/com/parkinglot/storage/FileBasedParkingStorage.java:158-199 | parseJson as written computes SlotRecords, failing where substring throws |
| Persistence.ParseSlots | src/main/java/com/parkinglot/storage/FileBasedParkingStorage.java:158-199 | the corrected parseJson computes LoadRecords, which reads an empty slots array as no slots |
| Persistence.ApplyFieldsFails | src/main/java/com/parkinglot/storage/FileBasedParkingStorage.java:168-190 | once a field throws, the whole record fails |
| Persistence.ParseEntriesFails | src/main/java/com/parkinglot/storage/FileBasedParkingStorage.java:162-198 | once an entry throws, the whole parse fails |
| Persistence.TrimAndJoin | src/main/java/com/parkinglot/storage/FileBasedParkingStorage.java:147-151 | the readLine loop appends the trimmed lines, which is TrimJoin |
| Persistence.ToSlot | src/main/java/com/parkinglot/storage/FileBasedParkingStorage.java:193-197 | a slot with the record's number and tier. It is occupied exactly when both vehicle fields were present |
| Persistence.ToLot | src/main/java/com/parkinglot/storage/FileBasedParkingStorage.java:193-197 | one slot per record, in order; it fails exactly when some record has no supportedType |
| Persistence.TierNames | src/main/java/com/parkinglot/storage/FileBasedParkingStorage.java:179-188 | VehicleType.valueOf accepts exactly the names toString prints, and inverts toString |
| Persistence.ApplyFieldFrame | src/main/java/com/parkinglot/storage/FileBasedParkingStorage.java:174-189 | each branch of the field loop sets only its own variable; only the slotNumber, supportedType and vehicleType branches can throw; a line with none of the four keys changes nothing |
| Persistence.SetNumber | src/main/java/com/parkinglot/storage/FileBasedParkingStorage.java:176 | the slotNumber line changes the slot number and nothing else, and fails where parseInt throws |
| Persistence.SetTier | src/main/java/com/parkinglot/storage/FileBasedParkingStorage.java:178-179 | the supportedType line changes the supported type and nothing else, and fails where valueOf throws |
| Persistence.SetPlate | src/main/java/com/parkinglot/storage/FileBasedParkingStorage.java:181-184 | the vehicleNumber line never fails and changes the plate and nothing else |
| Persistence.SetVehicleTier | src/main/java/com/parkinglot/storage/FileBasedParkingStorage.java:186-189 | the vehicleType line changes the vehicle type and nothing else, and fails where valueOf throws |
| Persistence.SlotRecords | src/main/java/com/parkinglot/storage/FileBasedParkingStorage.java:158-199 | parseJson as written gives one record per entry of the split; an empty slots array gives one record of initial values |
| Persistence.LoadRecords | src/main/java/com/parkinglot/storage/FileBasedParkingStorage.java:158-199 | the corrected parse: an empty slots array gives no records, and every other text gives what parseJson as written gives |
| Persistence.Load | src/main/java/com/parkinglot/storage/FileBasedParkingStorage.java:142-156 | the lot a storage starts from. No file gives the empty lot; otherwise one slot per parsed record, each built from its record |
| Persistence.FileTextReadBack | src/main/java/com/parkinglot/storage/FileBasedParkingStorage.java:117-151 | reading the text saveToFile wrote, line by line, gives back the printed lines when none holds a line break |
| Persistence.LoadText | src/main/java/com/parkinglot/storage/FileBasedParkingStorage.java:142-156 | loadFromFile computes Load. A missing file gives the empty lot; otherwise lines are read, trimmed, joined, parsed and built into slots |
| Text.Trim | src/main/java/com/parkinglot/storage/FileBasedParkingStorage.java:150 | String.trim: the result is the input between a run of characters up to U+0020 at the front and one at the back. It is empty or starts and ends with a character above U+0020 |
| Text.RemoveChar | src/main/java/com/parkinglot/storage/FileBasedParkingStorage.java:178-188 | replace("\"", "") removes every quote and nothing else: no quote is left, the other characters keep their counts, and a quote-free string is unchanged. RemoveCharAppend gives that their order is kept |
| Text.Split | src/main/java/com/parkinglot/storage/FileBasedParkingStorage.java:161-167 | String.split for the record break and the comma: a string with no separator character gives itself as the one piece, and no piece of a split on commas holds a comma |
| Text.ParseInt | src/main/java/com/parkinglot/storage/FileBasedParkingStorage.java:176 | Integer.parseInt: a value only when the text is an optional sign and then digits, only within the int range, and with the sign of the text. ParseIntToString is its inverse |
| Text.PrintLines | src/main/java/com/parkinglot/storage/FileBasedParkingStorage.java:117-136 | println of each line: nothing is printed exactly when there are no lines, and the text ends with a line break. PrintLinesAppend and ReadPrintedLines relate it to readLine |
| Text.ReadLines | src/main/java/com/parkinglot/storage/FileBasedParkingStorage.java:146-151 | the lines readLine returns until null; none of them holds a line break |
| Text.TrimIndented | src/main/java/com/parkinglot/storage/FileBasedParkingStorage.java:150 | trim removes the indentation saveToFile puts before a line |
| Text.IndexOf | src/main/java/com/parkinglot/storage/FileBasedParkingStorage.java:160 | String.indexOf: the first position of the character, or -1 |
| Text.LastIndexOf | src/main/java/com/parkinglot/storage/FileBasedParkingStorage.java:160 | String.lastIndexOf: the last position of the character, or -1 |
| Text.Unquote | src/main/java/com/parkinglot/storage/FileBasedParkingStorage.java:178-188 | replace("\"", "") of a quoted quote-free word gives the word |
| Text.ParseIntToString | src/main/java/com/parkinglot/storage/FileBasedParkingStorage.java:124 | Integer.parseInt reads back every int that string concatenation printed |
| Text.ReadPrintedLines | src/main/java/com/parkinglot/storage/FileBasedParkingStorage.java:147-151 | readLine gives back the lines println wrote, when none holds a line break |
| RoundTrip.LinesUnbroken | src/main/java/com/parkinglot/storage/FileBasedParkingStorage.java:117-140 | no line printed for an encodable lot holds a line break |
| RoundTrip.FileTrimmed | src/main/java/com/parkinglot/storage/FileBasedParkingStorage.java:142-156 | the trimmed and joined file is the opening, the records joined by "},{", and "]}" |
| RoundTrip.SlotsTextOfFile | src/main/java/com/parkinglot/storage/FileBasedParkingStorage.java:160 | the text between the first "[" and the last "]" is exactly the joined records |
| RoundTrip.SplitJoined | src/main/java/com/parkinglot/storage/FileBasedParkingStorage.java:161 | split at "},\\s*{" leaves one piece per record, in order |
| RoundTrip.EntryBodyOf | src/main/java/com/parkinglot/storage/FileBasedParkingStorage.java:163-165 | trimming and stripping the braces leaves exactly the record body |
| RoundTrip.SplitFour | src/main/java/com/parkinglot/storage/FileBasedParkingStorage.java:167 | split(",") of a body gives its four fields |
| RoundTrip.NumberFieldParsed | src/main/java/com/parkinglot/storage/FileBasedParkingStorage.java:175-176 | the printed slotNumber line sets the number back |
| RoundTrip.TypeFieldParsed | src/main/java/com/parkinglot/storage/FileBasedParkingStorage.java:177-179 | the printed supportedType line sets the tier back |
| RoundTrip.PlateFieldParsed | src/main/java/com/parkinglot/storage/FileBasedParkingStorage.java:180-184 | the printed vehicleNumber line sets the plate back, or leaves it null for a free slot |
| RoundTrip.VehicleTypeFieldParsed | src/main/java/com/parkinglot/storage/FileBasedParkingStorage.java:185-189 | the printed vehicleType line sets the vehicle tier back, or leaves it null for a free slot |
| RoundTrip.FieldsParsed | src/main/java/com/parkinglot/storage/FileBasedParkingStorage.java:168-190 | the field loop over the four printed fields rebuilds the slot's record |
| RoundTrip.BodyParsed | src/main/java/com/parkinglot/storage/FileBasedParkingStorage.java:167-190 | splitting a printed body and parsing its fields rebuilds the slot's record |
| RoundTrip.EntryParsed | src/main/java/com/parkinglot/storage/FileBasedParkingStorage.java:162-190 | each split piece parses to its own slot's record |
| RoundTrip.PrefixParsed | src/main/java/com/parkinglot/storage/FileBasedParkingStorage.java:162-198 | the entry loop over the first n pieces of a saved encodable lot succeeds with the records of its first n slots, in order |
| RoundTrip.ToLotRecords | src/main/java/com/parkinglot/storage/FileBasedParkingStorage.java:193-197 | building slots from a lot's records gives back the lot |
| RoundTrip.JoinedParsed | src/main/java/com/parkinglot/storage/FileBasedParkingStorage.java:158-199 | for a non-empty encodable lot, parseJson of the joined file gives one record per slot |
| RoundTrip.EmptyLotAsWritten | src/main/java/com/parkinglot/storage/FileBasedParkingStorage.java:160-197 | as written, the file of an empty lot parses to one record holding the initial values |
| RoundTrip.SavedRecords | src/main/java/com/parkinglot/storage/FileBasedParkingStorage.java:158-199 | with the corrected parse, every encodable lot's file gives one record per slot |
| RoundTrip.LoadSaved | src/main/java/com/parkinglot/storage/FileBasedParkingStorage.java:117-199 | the round trip. Loading the file saved from an encodable lot reproduces every slot's number, tier and occupant, in order |
| Service.Park | src/main/java/com/parkinglot/service/ParkingLotService.java:24-34 | a number is returned iff some slot is free and accommodates the tier. It is the least such number, and that slot now holds the vehicle; otherwise nothing changes. Validity is kept |
| Service.ParkInDenseLot | src/main/java/com/parkinglot/service/ParkingLotService.java:24-34 | in a dense lot, the returned number n is the first eligible position plus one, and slot n holds the vehicle |
| Service.ParkIgnoresPlate | src/main/java/com/parkinglot/service/ParkingLotService.java:24-34 | which slot is chosen does not depend on the plate |
| Service.DuplicatePlate | src/main/java/com/parkinglot/service/ParkingLotService.java:24-34 | in a dense lot whose first two slots are free and accommodate the tier, parking one plate twice succeeds twice. The two parks take slots 1 and 2, and both hold the plate, so plates are not unique |
| Service.ExitUndoesPark | src/main/java/com/parkinglot/service/ParkingLotService.java:24-38 | when no slot held the plate before, exiting it after a successful park succeeds and gives back the lot as it was |
| Service.CreatedLot | src/main/java/com/parkinglot/controller/ParkingLotController.java:64-72 | counts that pass CREATE's checks build a non-empty lot with one slot per requested slot |
| Service.ParkingLotService.CreateParkingLot | src/main/java/com/parkinglot/service/ParkingLotService.java:20-22 | the lot becomes Initial(small, large, oversize) |
| Service.ParkingLotService.ParkVehicle | src/main/java/com/parkinglot/service/ParkingLotService.java:24-34 | the returned number and new lot are Park of the old lot |
| Service.ParkingLotService.ExitVehicle | src/main/java/com/parkinglot/service/ParkingLotService.java:36-38 | Lot.Vacate of the old lot |
| Service.ParkingLotService.GetStatus | src/main/java/com/parkinglot/service/ParkingLotService.java:40-44 | exactly the occupied slots, in ascending slot number, and empty iff no slot is occupied |
| Service.ParkingLotService.GetAllSlots | src/main/java/com/parkinglot/service/ParkingLotService.java:46-48 | the storage's slots |
| Service.ParkingLotService.IsParkingLotCreated | src/main/java/com/parkinglot/service/ParkingLotService.java:50-52 | true iff the lot is non-empty |
| Service.ParkingLotService.EditSlot | src/main/java/com/parkinglot/service/ParkingLotService.java:54-56 | Lot.Retier of the old lot |
| Service.ParkingLotService.DeleteSlot | src/main/java/com/parkinglot/service/ParkingLotService.java:58-60 | Lot.Delete of the old lot |
| Service.FullFlowScenario | src/test/java/com/parkinglot/integration/ParkingLotIntegrationTest.java:21-26 | for create(small, large, oversize) with at least one SMALL slot (the test uses 5, 3, 2), parking a SMALL vehicle takes slot 1. Exiting that plate succeeds, exiting an unknown plate fails (as in the service test's testExitVehicle), and the status is then empty |
| Service.EditDeleteScenario | src/test/java/com/parkinglot/integration/ParkingLotIntegrationTest.java:29-34 | create(3,2,1), then edit 1 to LARGE, then delete 6. Five slots are left, and a LARGE vehicle then takes slot 1 |
| Service.OccupiedSlotScenario | src/test/java/com/parkinglot/integration/ParkingLotIntegrationTest.java:37-42 | once slot 1 is occupied, neither edit nor delete of slot 1 succeeds |

A lot is *encodable* when every slot number is a Java int and every plate is free of `,`, `"`, `{`, `}` and line breaks. The parser gives those characters a meaning.

## Findings

| source | as written | input that shows it | evidently intended | confidence | as-written member | corrected member |
|---|---|---|---|---|---|---|
| src/main/java/com/parkinglot/storage/FileBasedParkingStorage.java:160-197 | `"".split(...)` gives one empty entry, and parseJson turns it into a slot numbered 0 with no supportedType | saving an empty lot and then creating a storage on the file | an empty slots array gives an empty lot | high, not executed | RoundTrip.EmptyLotAsWritten | RoundTrip.LoadSaved (over Persistence.LoadRecords and Persistence.ParseSlots) |

The code as written is modelled by `Persistence.SlotRecords` and the method `Persistence.ParseJson`. Loading uses the corrected `Persistence.LoadRecords`, which `Persistence.ParseSlots` implements. The file-backed storage uses it as well. `RoundTrip.LoadSaved` proves the round trip for every encodable lot, the empty one included.

## Left out

- The REPL (cli/ParkingLotCLI.java) and the controller's command parsing and messages (controller/ParkingLotController.java) are not part of this model. The controller's CREATE checks appear only as the precondition of `Service.CreatedLot`. The storage itself accepts any counts; a negative count builds no slots, as the Java loops do.
- The seeder (seeder/ParkingLotSeeder.java) is not part of this model. It is glue over the service.
- The interfaces storage/ParkingStorage.java and strategy/SlotAllocationStrategy.java carry only signatures. The service is modelled over the in-memory storage alone, because it cannot be written over both storages without an interface type.
- Real file I/O: `Files.exists`, `FileWriter`, `BufferedReader` and the `RuntimeException` on an `IOException`. The file is its text, or None when it does not exist.
- Persistence.ToSlot: a record without `supportedType` makes loading fail. Java instead builds a slot whose tier is null, which none of the modelled operations can handle. Such records arise only from hand-edited files, or from the empty-lot case under Findings.
- Java `int` overflow in `slotNumber++` and in the counts is not modelled; numbers are mathematical integers. The round trip is stated only for slot numbers within the int range, since larger ones could not be printed by Java.
- Text.ParseInt: reads ASCII digits after an optional sign; the other Unicode digits Java's parseInt accepts are not modelled.
- Text.PrintLines: println is modelled with `"\n"` as the line separator, the platform default on Unix; readLine accepts `"\n"`, `"\r"` and `"\r\n"`.
- Object identity: the source lets `getAllSlots`'s copy share slot objects with the storage, and `parkVehicle` gets the slot object. The model passes the slot's position, and getAllSlots returns a value copy, so aliasing is not modelled.
- FileStorage.FileBasedParkingStorage.EditSlot: requires a densely numbered lot, because that is when writing at slotNumber - 1 hits the slot found. A lot loaded from a hand-edited file need not be dense. The other file-backed operations promise only to keep validity where it held.
- RoundTrip.LoadSaved: plates containing `,`, `"`, `{`, `}` or a line break are outside what the lemma covers. A comma or a quote changes what is read back; a brace without a comma may well reload unchanged, but the lemma does not state it.
- FileStorage.FileBasedParkingStorage.Open: loads with the corrected parse (Persistence.LoadRecords). On the file of an empty lot it gives the empty lot, where the source's constructor builds one slot numbered 0 with no tier (see Findings).
- FileStorage.FileBasedParkingStorage.Reopen: its reload clause rests on the corrected parse, so for an empty lot it promises the empty lot, which the source does not give back.
- FileStorage.FileBasedParkingStorage.Save: `Load(file) == Some(slots)` holds for the empty lot only under the corrected parse, not under parseJson as written.
- Persistence.LoadText: computes Load, which uses the corrected parse. On an empty lot's file it yields the empty lot, where the source yields slot 0 with no tier.
- Persistence.Load: uses the corrected parse, with the same consequence as LoadText.
