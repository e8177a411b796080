// The Glenair Series 80 connector builder store (src/stores/glenair-store.ts):
// a wizard whose steps pick a wire size, a contact size, contacts, an
// arrangement and a shell style, and then assemble a part number.

module GlenairStore {
  import opened Common
  import GlenairUtils

  datatype WireSystem = Awg | Mm2

  datatype ContactType = Pin | Socket

  /** `GlenairContact`. */
  datatype Contact = Contact(part_number: string, kind: ContactType, contact_size: string,
                             awg_range: Option<string>, mm2_range: Option<string>, description: Option<string>)

  /** `GlenairArrangement`. */
  datatype Arrangement = Arrangement(arrangement: string, total_contacts: int, contact_size: string, contact_count: int)

  /** `WireContactMapping`: a row of the wire-size to contact-size table. */
  datatype WireContactMapping = WireContactMapping(wire_size: string, system: WireSystem, contact_size: string)

  /** `GlenairBuilderResult`, with its metadata record spelled out. */
  datatype BuilderResult = BuilderResult(partNumber: string, description: string,
                                         wireSize: string, wireSystem: WireSystem, contactPN: string)

  /** The store's fields. */
  datatype BuilderState = BuilderState(
    step: int,
    wireSystem: WireSystem,
    wireValue: string,
    conductorCount: int,
    availableContactSizes: seq<string>,
    contactSize: Option<string>,
    availableContacts: seq<Contact>,
    selectedContacts: seq<Contact>,
    availableArrangements: seq<Arrangement>,
    arrangement: Option<string>,
    shellStyle: Option<string>,
    loading: bool,
    error: Option<string>,
    result: Option<BuilderResult>)

  /** `initialState`. */
  const Initial := BuilderState(1, Awg, "", 1, [], None, [], [], [], None, None, false, None, None)

  // ---------------------------------------------------------------------
  // toggleContact
  // ---------------------------------------------------------------------

  predicate HasPart(cs: seq<Contact>, pn: string)
  {
    exists i :: 0 <= i < |cs| && cs[i].part_number == pn
  }

  /** No two selected contacts share a part number. */
  predicate UniqueParts(cs: seq<Contact>)
  {
    forall i, j :: 0 <= i < j < |cs| ==> cs[i].part_number != cs[j].part_number
  }

  /** `filter(c => c.part_number !== pn)`. */
  function WithoutPart(cs: seq<Contact>, pn: string): (r: seq<Contact>)
    ensures |r| <= |cs|
    ensures !HasPart(r, pn)
    ensures forall x :: x in r <==> x in cs && x.part_number != pn
  {
    if cs == [] then []
    else (if cs[0].part_number == pn then [] else [cs[0]]) + WithoutPart(cs[1..], pn)
  }

  /** toggleContact: drop every contact with the part number if one is selected, otherwise append it. */
  function Toggled(cs: seq<Contact>, c: Contact): (r: seq<Contact>)
    ensures HasPart(r, c.part_number) <==> !HasPart(cs, c.part_number)
    ensures forall x: Contact :: x.part_number != c.part_number ==> (x in r <==> x in cs)
  {
    if HasPart(cs, c.part_number) then WithoutPart(cs, c.part_number)
    else
      assert (cs + [c])[|cs|] == c;
      cs + [c]
  }

  lemma {:induction false} WithoutPartAbsent(cs: seq<Contact>, pn: string)
    requires !HasPart(cs, pn)
    ensures WithoutPart(cs, pn) == cs
  {
    if cs != [] {
      assert !HasPart(cs[1..], pn) by {
        forall i | 0 <= i < |cs[1..]|
          ensures cs[1..][i].part_number != pn
        {
          assert cs[1..][i] == cs[i + 1];
        }
      }
      WithoutPartAbsent(cs[1..], pn);
      assert cs[0].part_number != pn;
      assert [cs[0]] + cs[1..] == cs;
    }
  }

  lemma {:induction false} WithoutPartAppend(cs: seq<Contact>, d: Contact, pn: string)
    ensures WithoutPart(cs + [d], pn) == WithoutPart(cs, pn) + (if d.part_number == pn then [] else [d])
  {
    var tail := if d.part_number == pn then [] else [d];
    if cs == [] {
      assert [d][1..] == [];
      assert WithoutPart([d], pn) == tail + WithoutPart([], pn);
    } else {
      var head := if cs[0].part_number == pn then [] else [cs[0]];
      assert (cs + [d])[0] == cs[0];
      assert (cs + [d])[1..] == cs[1..] + [d];
      assert WithoutPart(cs + [d], pn) == head + WithoutPart(cs[1..] + [d], pn);
      WithoutPartAppend(cs[1..], d, pn);
      assert WithoutPart(cs, pn) == head + WithoutPart(cs[1..], pn);
      SeqAssoc(head, WithoutPart(cs[1..], pn), tail);
    }
  }

  /** Selecting a contact that was not selected and then toggling it again gives back the same selection. */
  lemma ToggleTwiceAbsent(cs: seq<Contact>, c: Contact)
    requires !HasPart(cs, c.part_number)
    ensures Toggled(Toggled(cs, c), c) == cs
  {
    WithoutPartAppend(cs, c, c.part_number);
    WithoutPartAbsent(cs, c.part_number);
  }

  /** Toggling a selected part number twice leaves the other contacts in order and the new one last. */
  lemma ToggleTwicePresent(cs: seq<Contact>, c: Contact)
    requires HasPart(cs, c.part_number)
    ensures Toggled(Toggled(cs, c), c) == WithoutPart(cs, c.part_number) + [c]
  {
  }

  lemma {:induction false} WithoutPartUnique(cs: seq<Contact>, pn: string)
    requires UniqueParts(cs)
    ensures UniqueParts(WithoutPart(cs, pn))
  {
    if cs != [] {
      var tail := cs[1..];
      UniqueTail(cs);
      WithoutPartUnique(tail, pn);
      var rest := WithoutPart(tail, pn);
      if cs[0].part_number != pn {
        assert forall x :: x in rest ==> x in tail;
        UniqueCons(cs[0], rest);
      }
    }
  }

  lemma UniqueTail(cs: seq<Contact>)
    requires cs != [] && UniqueParts(cs)
    ensures UniqueParts(cs[1..])
    ensures forall x :: x in cs[1..] ==> x.part_number != cs[0].part_number
  {
    var tail := cs[1..];
    forall i, j | 0 <= i < j < |tail| ensures tail[i].part_number != tail[j].part_number {
      assert tail[i] == cs[i + 1] && tail[j] == cs[j + 1];
    }
    forall x | x in tail ensures x.part_number != cs[0].part_number {
      var k :| 0 <= k < |tail| && tail[k] == x;
      assert tail[k] == cs[k + 1];
    }
  }

  lemma UniqueCons(c: Contact, rest: seq<Contact>)
    requires UniqueParts(rest) && forall x :: x in rest ==> x.part_number != c.part_number
    ensures UniqueParts([c] + rest)
  {
    var r := [c] + rest;
    forall i, j | 0 <= i < j < |r| ensures r[i].part_number != r[j].part_number {
      assert r[j] == rest[j - 1] && r[j] in rest;
      if i > 0 {
        assert r[i] == rest[i - 1];
      }
    }
  }


  /** Toggling keeps the part numbers of the selection distinct. */
  lemma ToggleKeepsUnique(cs: seq<Contact>, c: Contact)
    requires UniqueParts(cs)
    ensures UniqueParts(Toggled(cs, c))
  {
    if HasPart(cs, c.part_number) {
      WithoutPartUnique(cs, c.part_number);
    } else {
      var r := cs + [c];
      forall i, j | 0 <= i < j < |r|
        ensures r[i].part_number != r[j].part_number
      {
        assert r[i] == cs[i];
        if j == |cs| {
          assert r[j] == c;
        } else {
          assert r[j] == cs[j];
        }
      }
    }
  }

  // ---------------------------------------------------------------------
  // buildPart
  // ---------------------------------------------------------------------

  /** `replace(/[*]/g, '')`. */
  function RemoveStars(s: string): (r: string)
    ensures |r| <= |s|
    ensures Lacks(r, '*')
    ensures Lacks(s, '*') ==> r == s
    ensures forall i :: 0 <= i < |r| ==> r[i] in s
  {
    if s == [] then []
    else if s[0] == '*' then RemoveStars(s[1..])
    else [s[0]] + RemoveStars(s[1..])
  }

  /** The last '-' field of the contact's part number without its '*' marks, or "A" when it has no '-'. */
  function ContactSuffix(pn: string): string
  {
    var parts := Split(pn, '-');
    if |parts| > 1 then RemoveStars(parts[|parts| - 1]) else "A"
  }

  lemma {:induction false} SplitLastField(a: string, b: string, current: string)
    requires Lacks(b, '-')
    ensures var r := SplitFrom(a + "-" + b, '-', current); |r| > 1 && r[|r| - 1] == b
    decreases |a|
  {
    var s := a + "-" + b;
    if a == [] {
      assert s == ['-'] + b && s[1..] == b;
      GlenairUtils.SplitWhole(b, "");
      assert "" + b == b;
    } else {
      assert s[1..] == a[1..] + "-" + b;
      if a[0] == '-' {
        SplitLastField(a[1..], b, "");
      } else {
        SplitLastField(a[1..], b, current + [a[0]]);
      }
    }
  }

  lemma {:induction false} SplitFieldsLack(s: string, current: string)
    requires Lacks(current, '-')
    ensures forall k :: 0 <= k < |SplitFrom(s, '-', current)| ==> Lacks(SplitFrom(s, '-', current)[k], '-')
    decreases |s|
  {
    if s != [] {
      if s[0] == '-' {
        SplitFieldsLack(s[1..], "");
      } else {
        SplitFieldsLack(s[1..], current + [s[0]]);
      }
    }
  }

  /** The suffix holds neither '-' nor '*'. */
  lemma ContactSuffixPlain(pn: string)
    ensures Lacks(ContactSuffix(pn), '-') && Lacks(ContactSuffix(pn), '*')
  {
    SplitFieldsLack(pn, "");
    var parts := Split(pn, '-');
    if |parts| > 1 {
      var field := parts[|parts| - 1];
      var r := RemoveStars(field);
      forall i | 0 <= i < |r|
        ensures r[i] != '-'
      {
        assert r[i] in field;
      }
    }
  }

  /** `10-375-20*` gives `20`: the field after the last dash, stars removed. */
  lemma ContactSuffixDashed(a: string, b: string)
    requires Lacks(b, '-')
    ensures ContactSuffix(a + "-" + b) == RemoveStars(b)
  {
    SplitLastField(a, b, "");
  }

  /** A part number without a dash gives the suffix "A". */
  lemma ContactSuffixUndashed(pn: string)
    requires Lacks(pn, '-')
    ensures ContactSuffix(pn) == "A"
  {
    GlenairUtils.SplitWhole(pn, "");
  }

  function TypeLetter(t: ContactType): string
  {
    if t == Pin then "P" else "S"
  }

  function TypeName(t: ContactType): string
  {
    if t == Pin then "Pin" else "Socket"
  }

  /** A JavaScript-truthy optional string: present and non-empty. */
  predicate Filled(o: Option<string>)
  {
    o.Some? && o.value != ""
  }

  /** buildPart can run: shell style, arrangement and at least one contact are chosen. */
  predicate Ready(s: BuilderState)
  {
    Filled(s.shellStyle) && Filled(s.arrangement) && |s.selectedContacts| > 0
  }

  function Describe(shellStyle: string, arrangement: string, t: ContactType): string
  {
    "Glenair Series 80 Connector - Shell Style " + shellStyle + ", Arrangement " + arrangement + ", "
      + TypeName(t) + " Contacts"
  }

  /** buildPart: nothing happens unless Ready; otherwise the result for the first selected contact and step 6. */
  function Built(s: BuilderState): (r: BuilderState)
    ensures !Ready(s) ==> r == s
    ensures Ready(s) ==> r.step == 6 && r.result.Some? && r == s.(result := r.result, step := 6)
    ensures Ready(s) ==>
              r.result.value.contactPN == s.selectedContacts[0].part_number &&
              r.result.value.wireSize == s.wireValue && r.result.value.wireSystem == s.wireSystem
  {
    if !Ready(s) then s
    else
      var c := s.selectedContacts[0];
      var shell := s.shellStyle.value;
      var arr := s.arrangement.value;
      var pn := GlenairUtils.BuildPartNumber(shell, arr, TypeLetter(c.kind), ContactSuffix(c.part_number));
      s.(result := Some(BuilderResult(pn, Describe(shell, arr, c.kind), s.wireValue, s.wireSystem, c.part_number)),
         step := 6)
  }

  /**
   * The part number splits back at its dashes into `80<shell>`, the
   * arrangement and the contact code: the type letter of the first contact
   * followed by its suffix.
   */
  lemma BuiltPartNumber(s: BuilderState)
    requires Ready(s)
    requires Lacks(s.shellStyle.value, '-') && Lacks(s.arrangement.value, '-')
    ensures var c := s.selectedContacts[0];
            Split(Built(s).result.value.partNumber, '-') ==
              ["80" + s.shellStyle.value, s.arrangement.value, TypeLetter(c.kind) + ContactSuffix(c.part_number)]
  {
    var c := s.selectedContacts[0];
    var code := TypeLetter(c.kind) + ContactSuffix(c.part_number);
    ContactSuffixPlain(c.part_number);
    assert Lacks(code, '-') by {
      forall i | 0 <= i < |code|
        ensures code[i] != '-'
      {
        if i > 0 {
          assert code[i] == ContactSuffix(c.part_number)[i - 1];
        }
      }
    }
    GlenairUtils.PartNumberFields(s.shellStyle.value, s.arrangement.value, TypeLetter(c.kind), ContactSuffix(c.part_number));
  }

  // ---------------------------------------------------------------------
  // The other actions
  // ---------------------------------------------------------------------

  /** `sizes.map(s => s.contact_size)`. */
  function ContactSizes(rows: seq<WireContactMapping>): (r: seq<string>)
    ensures |r| == |rows| && forall i :: 0 <= i < |rows| ==> r[i] == rows[i].contact_size
  {
    seq(|rows|, i requires 0 <= i < |rows| => rows[i].contact_size)
  }

  /** setWireSelection, given what getCompatibleContactSizes answered (or the message it threw). */
  function WireSelected(s: BuilderState, system: WireSystem, value: string, count: int,
                        found: Result<seq<WireContactMapping>>): (r: BuilderState)
    ensures !r.loading && r.wireSystem == system && r.wireValue == value && r.conductorCount == count
    ensures found.Ok? ==> r.step == 2 && r.error == s.error && |r.availableContactSizes| == |found.value|
    ensures found.Ok? ==> forall i :: 0 <= i < |found.value| ==> r.availableContactSizes[i] == found.value[i].contact_size
    ensures found.Err? ==> r.step == s.step && r.error == Some(found.msg) && r.availableContactSizes == s.availableContactSizes
    ensures r.selectedContacts == s.selectedContacts && r.result == s.result
  {
    var pending := s.(loading := true, wireSystem := system, wireValue := value, conductorCount := count);
    match found
    case Ok(rows) => pending.(availableContactSizes := ContactSizes(rows), loading := false, step := 2)
    case Err(m) => pending.(error := Some(m), loading := false)
  }

  /** setContactSize, given what getContactsBySize and getArrangementsByContactCount answered. */
  function ContactSizeChosen(s: BuilderState, size: string, contacts: Result<seq<Contact>>,
                             arrangements: Result<seq<Arrangement>>): (r: BuilderState)
    ensures !r.loading && r.contactSize == Some(size)
    ensures contacts.Ok? && arrangements.Ok? ==>
              r.step == 3 && r.availableContacts == contacts.value && r.availableArrangements == arrangements.value
    ensures contacts.Err? ==> r.step == s.step && r.error == Some(contacts.msg)
    ensures contacts.Ok? && arrangements.Err? ==> r.step == s.step && r.error == Some(arrangements.msg)
    ensures r.selectedContacts == s.selectedContacts && r.result == s.result
  {
    var pending := s.(loading := true, contactSize := Some(size));
    if contacts.Err? then pending.(error := Some(contacts.msg), loading := false)
    else if arrangements.Err? then pending.(error := Some(arrangements.msg), loading := false)
    else pending.(availableContacts := contacts.value, availableArrangements := arrangements.value,
                  loading := false, step := 3)
  }

  /** One action of the builder, with the database's answers where it asks the database. */
  datatype Action =
    | SelectWire(system: WireSystem, value: string, count: int, found: Result<seq<WireContactMapping>>)
    | SelectContactSize(size: string, contacts: Result<seq<Contact>>, arrangements: Result<seq<Arrangement>>)
    | Toggle(contact: Contact)
    | ChooseArrangement(name: string)
    | ChooseShellStyle(style: string)
    | Reset
    | Build

  function Next(s: BuilderState, a: Action): BuilderState
  {
    match a
    case SelectWire(system, value, count, found) => WireSelected(s, system, value, count, found)
    case SelectContactSize(size, contacts, arrangements) => ContactSizeChosen(s, size, contacts, arrangements)
    case Toggle(c) => s.(selectedContacts := Toggled(s.selectedContacts, c))
    case ChooseArrangement(name) => s.(arrangement := Some(name), step := 4)
    case ChooseShellStyle(style) => s.(shellStyle := Some(style), step := 5)
    case Reset => Initial
    case Build => Built(s)
  }

  /**
   * What holds between actions: the step is one of the six, nothing is
   * loading, the selection has distinct part numbers, step 6 has a result,
   * and every result is a Series 80 part number.
   */
  predicate Settled(s: BuilderState)
  {
    1 <= s.step <= 6 && !s.loading && UniqueParts(s.selectedContacts) &&
    (s.step == 6 ==> s.result.Some?) &&
    (s.result.Some? ==> |s.result.value.partNumber| >= 2 && s.result.value.partNumber[..2] == "80")
  }

  lemma InitialSettled()
    ensures Settled(Initial)
  {
  }

  lemma BuiltSettled(s: BuilderState)
    requires Settled(s)
    ensures Settled(Built(s))
  {
    if Ready(s) {
      assert Built(s).selectedContacts == s.selectedContacts;
    }
  }

  /** Every action keeps the builder settled. */
  lemma NextKeepsSettled(s: BuilderState, a: Action)
    requires Settled(s)
    ensures Settled(Next(s, a))
  {
    match a
    case Toggle(c) => ToggleKeepsUnique(s.selectedContacts, c);
    case Build => BuiltSettled(s);
    case _ =>
  }

  /** Reset forgets everything that came before it. */
  lemma ResetForgets(s: BuilderState, t: BuilderState)
    ensures Next(s, Reset) == Next(t, Reset) == Initial
  {
  }

  // ---------------------------------------------------------------------
  // The store
  // ---------------------------------------------------------------------

  /**
   * The zustand store: it holds one immutable state object, and every `set`
   * replaces it with a copy in which the given keys are overwritten.
   */
  class Store {
    var state: BuilderState

    constructor ()
      ensures state == Initial
    {
      state := Initial;
    }

    /** setWireSelection: the lookup is asked for the value and the system. */
    method SetWireSelection(system: WireSystem, value: string, count: int,
                            compatibleSizes: (string, WireSystem) -> Result<seq<WireContactMapping>>)
      modifies this
      ensures state == Next(old(state), SelectWire(system, value, count, compatibleSizes(value, system)))
    {
      state := state.(loading := true, wireSystem := system, wireValue := value, conductorCount := count);
      var found := compatibleSizes(value, system);
      match found {
        case Ok(rows) =>
          state := state.(availableContactSizes := ContactSizes(rows), loading := false, step := 2);
        case Err(m) =>
          state := state.(error := Some(m), loading := false);
      }
    }

    /** setContactSize: contacts by size, then arrangements by the stored conductor count and the size. */
    method SetContactSize(size: string, contactsBySize: string -> Result<seq<Contact>>,
                          arrangementsByCount: (int, string) -> Result<seq<Arrangement>>)
      modifies this
      ensures state == Next(old(state), SelectContactSize(size, contactsBySize(size),
                                                          arrangementsByCount(old(state).conductorCount, size)))
    {
      state := state.(loading := true, contactSize := Some(size));
      var contacts := contactsBySize(size);
      if contacts.Err? {
        state := state.(error := Some(contacts.msg), loading := false);
        return;
      }
      var arrangements := arrangementsByCount(state.conductorCount, size);
      if arrangements.Err? {
        state := state.(error := Some(arrangements.msg), loading := false);
        return;
      }
      state := state.(availableContacts := contacts.value, availableArrangements := arrangements.value,
                      loading := false, step := 3);
    }

    method ToggleContact(c: Contact)
      modifies this
      ensures state == Next(old(state), Toggle(c))
    {
      var selected := state.selectedContacts;
      var present := HasPart(selected, c.part_number);
      state := state.(selectedContacts := if present then WithoutPart(selected, c.part_number) else selected + [c]);
    }

    method SetArrangement(name: string)
      modifies this
      ensures state == Next(old(state), ChooseArrangement(name))
    {
      state := state.(arrangement := Some(name), step := 4);
    }

    method SetShellStyle(style: string)
      modifies this
      ensures state == Next(old(state), ChooseShellStyle(style))
    {
      state := state.(shellStyle := Some(style), step := 5);
    }

    method ResetAll()
      modifies this
      ensures state == Next(old(state), Reset)
    {
      state := Initial;
    }

    method BuildPart()
      modifies this
      ensures state == Next(old(state), Build)
    {
      var s := state;
      if s.shellStyle.None? || s.shellStyle.value == "" || s.arrangement.None? || s.arrangement.value == ""
         || |s.selectedContacts| == 0 {
        return;
      }
      var c := s.selectedContacts[0];
      var letter := if c.kind == Pin then "P" else "S";
      var pnParts := Split(c.part_number, '-');
      var suffix := if |pnParts| > 1 then RemoveStars(pnParts[|pnParts| - 1]) else "A";
      var partNumber := GlenairUtils.BuildPartNumber(s.shellStyle.value, s.arrangement.value, letter, suffix);
      state := s.(result := Some(BuilderResult(partNumber, Describe(s.shellStyle.value, s.arrangement.value, c.kind),
                                               s.wireValue, s.wireSystem, c.part_number)),
                  step := 6);
    }
  }
}
