/**
  The portfolio tree of the page component: the store holds Records, a Record
  holds Weeks, a Week holds Sections. Every mutation of the page rebuilds the
  whole tree from the previous one with `map`, `filter` and spread, so each is a
  pure function here from the previous `AppData` to the next. The identifier
  (`Date.now().toString()`) and the timestamp (`new Date().toISOString()`) that
  the page reads from the clock are parameters.
 */
module Portfolio {
  import opened Text
  import opened Seqs

  datatype SectionType = Task | Exercise

  datatype Section = Section(id: string, name: string, kind: SectionType, imageUrls: seq<string>, createdAt: string)

  datatype Week = Week(id: string, name: string, sections: seq<Section>, createdAt: string)

  datatype Record = Record(id: string, name: string, weeks: seq<Week>, createdAt: string)

  datatype AppData = AppData(
    records: seq<Record>,
    studentName: string,
    teacherName: string,
    studentImage: string,
    teacherImage: string)

  /** The state the page starts from before anything is loaded. */
  const InitialData := AppData(
    [],
    "Juan Luis Hern\U{E1}ndez Hercules - CIF: 2022010431",
    "Claudia Carolina Amaya de Serrano",
    "/foto1.jpg",
    "/foto2.jpg")

  /** No tree operation touches the profile fields. */
  predicate SameProfile(a: AppData, b: AppData) {
    && a.studentName == b.studentName
    && a.teacherName == b.teacherName
    && a.studentImage == b.studentImage
    && a.teacherImage == b.teacherImage
  }

  predicate SameRecordHeader(a: Record, b: Record) {
    a.id == b.id && a.name == b.name && a.createdAt == b.createdAt
  }

  predicate SameWeekHeader(a: Week, b: Week) {
    a.id == b.id && a.name == b.name && a.createdAt == b.createdAt
  }

  /** Same profile, same Records and Weeks in the same places, and as many Sections in each Week. */
  predicate SameShape(a: AppData, b: AppData) {
    && SameProfile(a, b)
    && |a.records| == |b.records|
    && (forall i :: 0 <= i < |a.records| ==>
          SameRecordHeader(a.records[i], b.records[i]) && |a.records[i].weeks| == |b.records[i].weeks|)
    && (forall i, j :: 0 <= i < |a.records| && 0 <= j < |a.records[i].weeks| ==>
          SameWeekHeader(a.records[i].weeks[j], b.records[i].weeks[j])
          && |a.records[i].weeks[j].sections| == |b.records[i].weeks[j].sections|)
  }

  /** Two trees of the same shape that agree on every Section are the same tree. */
  lemma SameShapeAndSectionsEqual(a: AppData, b: AppData)
    requires SameShape(a, b)
    requires forall i, j, k ::
               0 <= i < |a.records| && 0 <= j < |a.records[i].weeks| && 0 <= k < |a.records[i].weeks[j].sections| ==>
               a.records[i].weeks[j].sections[k] == b.records[i].weeks[j].sections[k]
    ensures a == b
  {
    forall i | 0 <= i < |a.records| ensures a.records[i] == b.records[i] {
      forall j | 0 <= j < |a.records[i].weeks| ensures a.records[i].weeks[j] == b.records[i].weeks[j] {
        assert a.records[i].weeks[j].sections == b.records[i].weeks[j].sections;
      }
      assert a.records[i].weeks == b.records[i].weeks;
    }
    assert a.records == b.records;
  }

  // ---------------------------------------------------------------------------
  // Positional default names

  function RecordName(n: nat): string {
    "Registro " + NatToString(n)
  }

  function WeekName(n: nat): string {
    "Semana " + NatToString(n)
  }

  /** Default Record names at distinct positions are distinct. */
  lemma RecordNamesDistinct(m: nat, n: nat)
    ensures RecordName(m) == RecordName(n) ==> m == n
  {
    if RecordName(m) == RecordName(n) {
      assert NatToString(m) == RecordName(m)[9..];
      assert NatToString(n) == RecordName(n)[9..];
      NatToStringInjective(m, n);
    }
  }

  /** Default Week names at distinct positions are distinct. */
  lemma WeekNamesDistinct(m: nat, n: nat)
    ensures WeekName(m) == WeekName(n) ==> m == n
  {
    if WeekName(m) == WeekName(n) {
      assert NatToString(m) == WeekName(m)[7..];
      assert NatToString(n) == WeekName(n)[7..];
      NatToStringInjective(m, n);
    }
  }

  // ---------------------------------------------------------------------------
  // createRecord

  /**
    `createRecord`: appends one empty Record to the end of `prev.records`. Its
    number is computed from `rendered`, the state the page last rendered, not
    from `prev`, the state the update is applied to.
   */
  function CreateRecord(rendered: AppData, prev: AppData, id: string, now: string): (r: AppData)
    ensures SameProfile(r, prev)
    ensures |r.records| == |prev.records| + 1 && r.records[..|prev.records|] == prev.records
    ensures var added := r.records[|prev.records|];
      && added.id == id && added.createdAt == now && added.weeks == []
      && added.name == RecordName(|rendered.records| + 1)
  {
    var newRecord := Record(id, RecordName(|rendered.records| + 1), [], now);
    prev.(records := prev.records + [newRecord])
  }

  /**
    When the page has re-rendered since the last update, the new Record is named
    after its own position, and no earlier position has that default name.
   */
  lemma CreateRecordNamedByPosition(d: AppData, id: string, now: string)
    ensures var r := CreateRecord(d, d, id, now);
      && r.records[|r.records| - 1].name == RecordName(|r.records|)
      && forall k :: 1 <= k < |r.records| ==> RecordName(k) != r.records[|r.records| - 1].name
  {
    var r := CreateRecord(d, d, id, now);
    forall k | 1 <= k < |r.records| ensures RecordName(k) != RecordName(|r.records|) {
      RecordNamesDistinct(k, |r.records|);
    }
  }

  /** The first Record created on a fresh page is "Registro 1", with no Weeks, and the profile is the initial one. */
  lemma FirstRecordFromInitialData(id: string, now: string)
    ensures InitialData.records == []
    ensures var r := CreateRecord(InitialData, InitialData, id, now);
      && r.records == [Record(id, "Registro 1", [], now)]
      && SameProfile(r, InitialData)
  {
    assert NatToString(1) == [DigitChar(1)] == "1";
    assert RecordName(1) == "Registro 1";
  }

  /** Two updates applied before a re-render both take their number from the same rendered state. */
  lemma CreateRecordTwiceBeforeRender(d: AppData, id1: string, id2: string, now1: string, now2: string)
    ensures var r := CreateRecord(d, CreateRecord(d, d, id1, now1), id2, now2);
      && |r.records| == |d.records| + 2
      && r.records[|d.records|].name == r.records[|d.records| + 1].name == RecordName(|d.records| + 1)
  {
  }

  // ---------------------------------------------------------------------------
  // createWeek

  /** `createWeek`: appends "Semana N" to every Record whose id is `recordId`, N counted per Record. */
  function CreateWeek(prev: AppData, recordId: string, id: string, now: string): (r: AppData)
    ensures SameProfile(r, prev) && |r.records| == |prev.records|
    ensures forall i :: 0 <= i < |prev.records| && prev.records[i].id != recordId ==>
      r.records[i] == prev.records[i]
    ensures forall i :: 0 <= i < |prev.records| && prev.records[i].id == recordId ==>
      var before, after := prev.records[i], r.records[i];
      && SameRecordHeader(after, before)
      && |after.weeks| == |before.weeks| + 1
      && after.weeks[..|before.weeks|] == before.weeks
      && after.weeks[|before.weeks|] == Week(id, WeekName(|before.weeks| + 1), [], now)
  {
    prev.(records := Map((record: Record) =>
      if record.id == recordId then
        record.(weeks := record.weeks + [Week(id, WeekName(|record.weeks| + 1), [], now)])
      else record,
      prev.records))
  }

  /** `createWeek` with an id that names no Record changes nothing. */
  lemma CreateWeekUnresolved(prev: AppData, recordId: string, id: string, now: string)
    requires forall i :: 0 <= i < |prev.records| ==> prev.records[i].id != recordId
    ensures CreateWeek(prev, recordId, id, now) == prev
  {
    assert CreateWeek(prev, recordId, id, now).records == prev.records;
  }

  /** Two `createWeek` calls on a Record with no Weeks give "Semana 1" then "Semana 2". */
  lemma CreateWeekTwiceNames(prev: AppData, i: nat, id1: string, id2: string, now1: string, now2: string)
    requires i < |prev.records| && prev.records[i].weeks == []
    ensures var recordId := prev.records[i].id;
      var r := CreateWeek(CreateWeek(prev, recordId, id1, now1), recordId, id2, now2);
      && |r.records[i].weeks| == 2
      && r.records[i].weeks[0].name == "Semana 1"
      && r.records[i].weeks[1].name == "Semana 2"
  {
    assert NatToString(1) == "1" && NatToString(2) == "2";
  }

  // ---------------------------------------------------------------------------
  // saveNewSection

  /**
    `saveNewSection`: nothing happens when the name is blank; otherwise one
    Section with the trimmed name, the chosen type and the image list is
    appended to every Week `weekId` of every Record `recordId`.
   */
  function SaveNewSection(prev: AppData, recordId: string, weekId: string, kind: SectionType,
                          name: string, images: seq<string>, id: string, now: string): (r: AppData)
    ensures IsBlank(name) ==> r == prev
    ensures SameProfile(r, prev) && |r.records| == |prev.records|
    ensures forall i :: 0 <= i < |prev.records| ==>
      SameRecordHeader(r.records[i], prev.records[i]) && |r.records[i].weeks| == |prev.records[i].weeks|
    ensures forall i, j :: 0 <= i < |prev.records| && 0 <= j < |prev.records[i].weeks| ==>
      var before, after := prev.records[i].weeks[j], r.records[i].weeks[j];
      && SameWeekHeader(after, before)
      && after.sections ==
           if !IsBlank(name) && prev.records[i].id == recordId && before.id == weekId
           then before.sections + [Section(id, Trim(name), kind, images, now)]
           else before.sections
  {
    if Trim(name) == [] then prev
    else
      var newSection := Section(id, Trim(name), kind, images, now);
      prev.(records := Map((record: Record) =>
        if record.id == recordId then
          record.(weeks := Map((week: Week) =>
            if week.id == weekId then week.(sections := week.sections + [newSection]) else week,
            record.weeks))
        else record,
        prev.records))
  }

  /** The Week path (`recordId`, `weekId`) names at least one Week of the tree. */
  predicate WeekPathResolves(d: AppData, recordId: string, weekId: string) {
    exists i, j :: 0 <= i < |d.records| && 0 <= j < |d.records[i].weeks|
      && d.records[i].id == recordId && d.records[i].weeks[j].id == weekId
  }

  /** `saveNewSection` towards a Week path that does not resolve changes nothing. */
  lemma SaveNewSectionUnresolved(prev: AppData, recordId: string, weekId: string, kind: SectionType,
                                 name: string, images: seq<string>, id: string, now: string)
    requires !WeekPathResolves(prev, recordId, weekId)
    ensures SaveNewSection(prev, recordId, weekId, kind, name, images, id, now) == prev
  {
    var r := SaveNewSection(prev, recordId, weekId, kind, name, images, id, now);
    SameShapeAndSectionsEqual(r, prev);
  }

  // ---------------------------------------------------------------------------
  // deleteRecord, deleteWeek, deleteSection

  /** `deleteRecord`: drops every Record whose id is `recordId`, keeping the others in order. */
  function DeleteRecord(prev: AppData, recordId: string): (r: AppData)
    ensures SameProfile(r, prev)
    ensures forall i :: 0 <= i < |r.records| ==> r.records[i].id != recordId && r.records[i] in prev.records
    ensures forall i :: 0 <= i < |prev.records| && prev.records[i].id != recordId ==> prev.records[i] in r.records
    ensures IsSubsequence(r.records, prev.records)
  {
    FilterIsSubsequence((record: Record) => record.id != recordId, prev.records);
    prev.(records := Filter((record: Record) => record.id != recordId, prev.records))
  }

  /** What `deleteRecord` drops, counted with multiplicity, is exactly the Records with that id. */
  lemma DeleteRecordRemovesExactlyMatching(prev: AppData, recordId: string)
    ensures multiset(DeleteRecord(prev, recordId).records)
          + multiset(Filter((record: Record) => record.id == recordId, prev.records))
         == multiset(prev.records)
  {
    FilterPartition((record: Record) => record.id != recordId, (record: Record) => record.id == recordId, prev.records);
  }

  lemma DeleteRecordIdempotent(prev: AppData, recordId: string)
    ensures DeleteRecord(DeleteRecord(prev, recordId), recordId) == DeleteRecord(prev, recordId)
  {
    FilterIdempotent((record: Record) => record.id != recordId, prev.records);
  }

  lemma DeleteRecordUnresolved(prev: AppData, recordId: string)
    requires forall i :: 0 <= i < |prev.records| ==> prev.records[i].id != recordId
    ensures DeleteRecord(prev, recordId) == prev
  {
    FilterKeepsAll((record: Record) => record.id != recordId, prev.records);
  }

  /** The Sections of a list of Weeks, Week by Week. */
  function WeekSections(weeks: seq<Week>): seq<Section> {
    if weeks == [] then [] else weeks[0].sections + WeekSections(weeks[1..])
  }

  /** The Sections of a list of Records, Record by Record. */
  function RecordSections(records: seq<Record>): seq<Section> {
    if records == [] then [] else WeekSections(records[0].weeks) + RecordSections(records[1..])
  }

  lemma {:induction false} RecordSectionsSplit(keep: Record -> bool, drop: Record -> bool, records: seq<Record>)
    requires forall x :: drop(x) == !keep(x)
    ensures multiset(RecordSections(records))
         == multiset(RecordSections(Filter(keep, records))) + multiset(RecordSections(Filter(drop, records)))
  {
    if records != [] {
      RecordSectionsSplit(keep, drop, records[1..]);
      var head, tail := records[0], records[1..];
      if keep(head) {
        assert ([head] + Filter(keep, tail))[1..] == Filter(keep, tail);
      } else {
        assert ([head] + Filter(drop, tail))[1..] == Filter(drop, tail);
      }
    }
  }

  /**
    Deleting a Record takes its whole subtree with it: the Sections left are the
    Sections there were, less exactly those under the deleted Records.
   */
  lemma DeleteRecordDropsSubtree(prev: AppData, recordId: string)
    ensures multiset(RecordSections(prev.records))
         == multiset(RecordSections(DeleteRecord(prev, recordId).records))
          + multiset(RecordSections(Filter((record: Record) => record.id == recordId, prev.records)))
  {
    RecordSectionsSplit((record: Record) => record.id != recordId, (record: Record) => record.id == recordId, prev.records);
  }

  /** Deleting a Record by the id it was just created with gives back the tree, when no other Record has that id. */
  lemma DeleteRecordUndoesCreate(d: AppData, id: string, now: string)
    requires forall i :: 0 <= i < |d.records| ==> d.records[i].id != id
    ensures DeleteRecord(CreateRecord(d, d, id, now), id) == d
  {
    var keep := (record: Record) => record.id != id;
    var added := CreateRecord(d, d, id, now).records[|d.records|];
    assert CreateRecord(d, d, id, now).records == d.records + [added];
    FilterConcat(keep, d.records, [added]);
    FilterKeepsAll(keep, d.records);
    assert Filter(keep, [added]) == [];
  }

  /** `deleteWeek`: drops every Week `weekId` of every Record `recordId`, keeping the others in order. */
  function DeleteWeek(prev: AppData, recordId: string, weekId: string): (r: AppData)
    ensures SameProfile(r, prev) && |r.records| == |prev.records|
    ensures forall i :: 0 <= i < |prev.records| && prev.records[i].id != recordId ==>
      r.records[i] == prev.records[i]
    ensures forall i :: 0 <= i < |prev.records| && prev.records[i].id == recordId ==>
      var before, after := prev.records[i], r.records[i];
      && SameRecordHeader(after, before)
      && (forall j :: 0 <= j < |after.weeks| ==> after.weeks[j].id != weekId && after.weeks[j] in before.weeks)
      && (forall j :: 0 <= j < |before.weeks| && before.weeks[j].id != weekId ==> before.weeks[j] in after.weeks)
      && IsSubsequence(after.weeks, before.weeks)
  {
    FilterIsSubsequenceAlways((week: Week) => week.id != weekId);
    prev.(records := Map((record: Record) =>
      if record.id == recordId then record.(weeks := Filter((week: Week) => week.id != weekId, record.weeks))
      else record,
      prev.records))
  }

  /**
    In each Record on the path, what `deleteWeek` drops, counted with multiplicity,
    is exactly the Weeks with the id: identical sibling Weeks are all kept or all dropped.
   */
  lemma DeleteWeekRemovesExactlyMatching(prev: AppData, recordId: string, weekId: string)
    ensures var r := DeleteWeek(prev, recordId, weekId);
      forall i :: 0 <= i < |prev.records| && prev.records[i].id == recordId ==>
        multiset(r.records[i].weeks) + multiset(Filter((week: Week) => week.id == weekId, prev.records[i].weeks))
        == multiset(prev.records[i].weeks)
  {
    forall i | 0 <= i < |prev.records| && prev.records[i].id == recordId {
      FilterPartition((week: Week) => week.id != weekId, (week: Week) => week.id == weekId, prev.records[i].weeks);
    }
  }

  lemma DeleteWeekIdempotent(prev: AppData, recordId: string, weekId: string)
    ensures DeleteWeek(DeleteWeek(prev, recordId, weekId), recordId, weekId) == DeleteWeek(prev, recordId, weekId)
  {
    var once := DeleteWeek(prev, recordId, weekId);
    var twice := DeleteWeek(once, recordId, weekId);
    forall i | 0 <= i < |prev.records| ensures twice.records[i] == once.records[i] {
      if prev.records[i].id == recordId {
        FilterIdempotent((week: Week) => week.id != weekId, prev.records[i].weeks);
      }
    }
    assert twice.records == once.records;
  }

  lemma DeleteWeekUnresolved(prev: AppData, recordId: string, weekId: string)
    requires !WeekPathResolves(prev, recordId, weekId)
    ensures DeleteWeek(prev, recordId, weekId) == prev
  {
    var r := DeleteWeek(prev, recordId, weekId);
    forall i | 0 <= i < |prev.records| ensures r.records[i] == prev.records[i] {
      if prev.records[i].id == recordId {
        FilterKeepsAll((week: Week) => week.id != weekId, prev.records[i].weeks);
      }
    }
    assert r.records == prev.records;
  }

  /**
    Deleting a Week by the id it was just created with gives back the tree, when
    no Week of the Records it went to has that id already.
   */
  lemma DeleteWeekUndoesCreate(d: AppData, recordId: string, id: string, now: string)
    requires forall i, j :: 0 <= i < |d.records| && d.records[i].id == recordId && 0 <= j < |d.records[i].weeks| ==>
               d.records[i].weeks[j].id != id
    ensures DeleteWeek(CreateWeek(d, recordId, id, now), recordId, id) == d
  {
    var created := CreateWeek(d, recordId, id, now);
    var r := DeleteWeek(created, recordId, id);
    var keep := (week: Week) => week.id != id;
    forall i | 0 <= i < |d.records| ensures r.records[i] == d.records[i] {
      if d.records[i].id == recordId {
        var weeks := d.records[i].weeks;
        var added := created.records[i].weeks[|weeks|];
        assert created.records[i].weeks == weeks + [added];
        FilterConcat(keep, weeks, [added]);
        FilterKeepsAll(keep, weeks);
        assert Filter(keep, [added]) == [];
      }
    }
    assert r.records == d.records;
  }

  /** The Sections under the Weeks `weekId` of the Records `recordId`, in tree order. */
  function SectionsUnderWeek(records: seq<Record>, recordId: string, weekId: string): seq<Section> {
    if records == [] then []
    else
      (if records[0].id == recordId then WeekSections(Filter((week: Week) => week.id == weekId, records[0].weeks)) else [])
      + SectionsUnderWeek(records[1..], recordId, weekId)
  }

  lemma {:induction false} WeekSectionsSplit(keep: Week -> bool, drop: Week -> bool, weeks: seq<Week>)
    requires forall x :: drop(x) == !keep(x)
    ensures multiset(WeekSections(weeks))
         == multiset(WeekSections(Filter(keep, weeks))) + multiset(WeekSections(Filter(drop, weeks)))
  {
    if weeks != [] {
      WeekSectionsSplit(keep, drop, weeks[1..]);
      var head, tail := weeks[0], weeks[1..];
      if keep(head) {
        assert ([head] + Filter(keep, tail))[1..] == Filter(keep, tail);
      } else {
        assert ([head] + Filter(drop, tail))[1..] == Filter(drop, tail);
      }
    }
  }

  /**
    Deleting a Week takes its Sections with it: the Sections left are the
    Sections there were, less exactly those under the deleted Weeks.
   */
  lemma DeleteWeekDropsSubtree(prev: AppData, recordId: string, weekId: string)
    ensures multiset(RecordSections(prev.records))
         == multiset(RecordSections(DeleteWeek(prev, recordId, weekId).records))
          + multiset(SectionsUnderWeek(prev.records, recordId, weekId))
  {
    DeleteWeekDropsSubtreeOf(prev.records, recordId, weekId);
  }

  lemma {:induction false} DeleteWeekDropsSubtreeOf(records: seq<Record>, recordId: string, weekId: string)
    ensures var f := (record: Record) =>
              if record.id == recordId then record.(weeks := Filter((week: Week) => week.id != weekId, record.weeks))
              else record;
      multiset(RecordSections(records))
      == multiset(RecordSections(Map(f, records))) + multiset(SectionsUnderWeek(records, recordId, weekId))
  {
    var f := (record: Record) =>
      if record.id == recordId then record.(weeks := Filter((week: Week) => week.id != weekId, record.weeks))
      else record;
    if records != [] {
      DeleteWeekDropsSubtreeOf(records[1..], recordId, weekId);
      var mapped := Map(f, records);
      assert mapped[0] == f(records[0]) && mapped[1..] == Map(f, records[1..]);
      if records[0].id == recordId {
        WeekSectionsSplit((week: Week) => week.id != weekId, (week: Week) => week.id == weekId, records[0].weeks);
      }
    }
  }

  /** `deleteSection`: drops every Section `sectionId` under the Week path, keeping the others in order. */
  function DeleteSection(prev: AppData, recordId: string, weekId: string, sectionId: string): (r: AppData)
    ensures SameProfile(r, prev) && |r.records| == |prev.records|
    ensures forall i :: 0 <= i < |prev.records| ==>
      SameRecordHeader(r.records[i], prev.records[i]) && |r.records[i].weeks| == |prev.records[i].weeks|
    ensures forall i, j :: 0 <= i < |prev.records| && 0 <= j < |prev.records[i].weeks| ==>
      var before, after := prev.records[i].weeks[j], r.records[i].weeks[j];
      && SameWeekHeader(after, before)
      && if prev.records[i].id == recordId && before.id == weekId then
           && (forall k :: 0 <= k < |after.sections| ==>
                 after.sections[k].id != sectionId && after.sections[k] in before.sections)
           && (forall k :: 0 <= k < |before.sections| && before.sections[k].id != sectionId ==>
                 before.sections[k] in after.sections)
           && IsSubsequence(after.sections, before.sections)
         else after == before
  {
    FilterIsSubsequenceAlways((section: Section) => section.id != sectionId);
    prev.(records := Map((record: Record) =>
      if record.id == recordId then
        record.(weeks := Map((week: Week) =>
          if week.id == weekId then week.(sections := Filter((section: Section) => section.id != sectionId, week.sections))
          else week,
          record.weeks))
      else record,
      prev.records))
  }

  /**
    In each Week on the path, what `deleteSection` drops, counted with multiplicity,
    is exactly the Sections with the id: identical sibling Sections are all kept or all dropped.
   */
  lemma DeleteSectionRemovesExactlyMatching(prev: AppData, recordId: string, weekId: string, sectionId: string)
    ensures var r := DeleteSection(prev, recordId, weekId, sectionId);
      forall i, j :: 0 <= i < |prev.records| && prev.records[i].id == recordId
                     && 0 <= j < |prev.records[i].weeks| && prev.records[i].weeks[j].id == weekId ==>
        multiset(r.records[i].weeks[j].sections)
          + multiset(Filter((section: Section) => section.id == sectionId, prev.records[i].weeks[j].sections))
        == multiset(prev.records[i].weeks[j].sections)
  {
    forall i, j | 0 <= i < |prev.records| && prev.records[i].id == recordId
                  && 0 <= j < |prev.records[i].weeks| && prev.records[i].weeks[j].id == weekId {
      FilterPartition((section: Section) => section.id != sectionId, (section: Section) => section.id == sectionId,
                      prev.records[i].weeks[j].sections);
    }
  }

  lemma DeleteSectionIdempotent(prev: AppData, recordId: string, weekId: string, sectionId: string)
    ensures DeleteSection(DeleteSection(prev, recordId, weekId, sectionId), recordId, weekId, sectionId)
         == DeleteSection(prev, recordId, weekId, sectionId)
  {
    var once := DeleteSection(prev, recordId, weekId, sectionId);
    var twice := DeleteSection(once, recordId, weekId, sectionId);
    forall i | 0 <= i < |prev.records| ensures twice.records[i] == once.records[i] {
      forall j | 0 <= j < |prev.records[i].weeks| ensures twice.records[i].weeks[j] == once.records[i].weeks[j] {
        if prev.records[i].id == recordId && prev.records[i].weeks[j].id == weekId {
          FilterIdempotent((section: Section) => section.id != sectionId, prev.records[i].weeks[j].sections);
        }
      }
      assert twice.records[i].weeks == once.records[i].weeks;
    }
    assert twice.records == once.records;
  }

  lemma DeleteSectionUnresolved(prev: AppData, recordId: string, weekId: string, sectionId: string)
    requires FreshSectionId(prev, recordId, weekId, sectionId)
    ensures DeleteSection(prev, recordId, weekId, sectionId) == prev
  {
    var r := DeleteSection(prev, recordId, weekId, sectionId);
    forall i | 0 <= i < |prev.records| ensures r.records[i] == prev.records[i] {
      forall j | 0 <= j < |prev.records[i].weeks| ensures r.records[i].weeks[j] == prev.records[i].weeks[j] {
        if prev.records[i].id == recordId && prev.records[i].weeks[j].id == weekId {
          FilterKeepsAll((section: Section) => section.id != sectionId, prev.records[i].weeks[j].sections);
        }
      }
      assert r.records[i].weeks == prev.records[i].weeks;
    }
    assert r.records == prev.records;
  }

  /** No Section under the Week path (`recordId`, `weekId`) has the id `id`. */
  predicate FreshSectionId(d: AppData, recordId: string, weekId: string, id: string) {
    forall i, j, k ::
      (0 <= i < |d.records| && 0 <= j < |d.records[i].weeks| &&
       0 <= k < |d.records[i].weeks[j].sections| &&
       d.records[i].id == recordId && d.records[i].weeks[j].id == weekId) ==>
      d.records[i].weeks[j].sections[k].id != id
  }

  /**
    Deleting a Section by the id it was just saved with gives back the tree, when
    no Section under the Week path has that id already.
   */
  lemma DeleteSectionUndoesSaveNew(d: AppData, recordId: string, weekId: string, kind: SectionType,
                                   name: string, images: seq<string>, id: string, now: string)
    requires FreshSectionId(d, recordId, weekId, id)
    ensures DeleteSection(SaveNewSection(d, recordId, weekId, kind, name, images, id, now), recordId, weekId, id) == d
  {
    if IsBlank(name) {
      DeleteSectionUnresolved(d, recordId, weekId, id);
    } else {
      var saved := SaveNewSection(d, recordId, weekId, kind, name, images, id, now);
      var r := DeleteSection(saved, recordId, weekId, id);
      forall i | 0 <= i < |d.records| ensures r.records[i] == d.records[i] {
        DeleteSectionUndoesSaveNewIn(d, i, recordId, weekId, kind, name, images, id, now);
      }
      assert r.records == d.records;
    }
  }

  lemma DeleteSectionUndoesSaveNewIn(d: AppData, i: nat, recordId: string, weekId: string, kind: SectionType,
                                     name: string, images: seq<string>, id: string, now: string)
    requires i < |d.records| && !IsBlank(name) && FreshSectionId(d, recordId, weekId, id)
    ensures DeleteSection(SaveNewSection(d, recordId, weekId, kind, name, images, id, now), recordId, weekId, id).records[i]
         == d.records[i]
  {
    var saved := SaveNewSection(d, recordId, weekId, kind, name, images, id, now);
    var r := DeleteSection(saved, recordId, weekId, id);
    var keep := (section: Section) => section.id != id;
    forall j | 0 <= j < |d.records[i].weeks| ensures r.records[i].weeks[j] == d.records[i].weeks[j] {
      if d.records[i].id == recordId && d.records[i].weeks[j].id == weekId {
        var sections := d.records[i].weeks[j].sections;
        var added := Section(id, Trim(name), kind, images, now);
        FilterKeepsAll(keep, sections);
        FilterConcat(keep, sections, [added]);
        assert Filter(keep, [added]) == [];
      }
    }
    assert r.records[i].weeks == d.records[i].weeks;
  }

  // ---------------------------------------------------------------------------
  // saveSection

  /** `saveSection` inside one Week: the Sections with the id get the new name and images. */
  function SaveSectionInWeek(week: Week, sectionId: string, name: string, images: seq<string>): (w: Week)
    ensures SameWeekHeader(w, week) && |w.sections| == |week.sections|
    ensures forall k :: 0 <= k < |week.sections| ==>
      var before, after := week.sections[k], w.sections[k];
      && after.id == before.id && after.kind == before.kind && after.createdAt == before.createdAt
      && if before.id == sectionId then after.name == name && after.imageUrls == images else after == before
  {
    week.(sections := Map((section: Section) =>
      if section.id == sectionId then section.(name := name, imageUrls := images) else section,
      week.sections))
  }

  /** `saveSection` inside one Record: the Weeks with the id are updated, the others kept. */
  function SaveSectionInRecord(record: Record, weekId: string, sectionId: string,
                               name: string, images: seq<string>): (rec: Record)
    ensures SameRecordHeader(rec, record) && |rec.weeks| == |record.weeks|
    ensures forall j :: 0 <= j < |record.weeks| ==>
      rec.weeks[j] == if record.weeks[j].id == weekId
                      then SaveSectionInWeek(record.weeks[j], sectionId, name, images)
                      else record.weeks[j]
  {
    record.(weeks := Map((week: Week) =>
      if week.id == weekId then SaveSectionInWeek(week, sectionId, name, images) else week,
      record.weeks))
  }

  /**
    `saveSection`: every Section on the path (`recordId`, `weekId`, `sectionId`)
    gets the edited name, stored as typed, and the edited image list; its id,
    type and creation time stay. Nothing else changes: every other Record is kept
    as it is, and each Record with the id goes through `SaveSectionInRecord`.
   */
  function SaveSection(prev: AppData, recordId: string, weekId: string, sectionId: string,
                       name: string, images: seq<string>): (r: AppData)
    ensures SameProfile(r, prev) && |r.records| == |prev.records|
    ensures forall i :: 0 <= i < |prev.records| ==>
      r.records[i] == if prev.records[i].id == recordId
                      then SaveSectionInRecord(prev.records[i], weekId, sectionId, name, images)
                      else prev.records[i]
  {
    prev.(records := Map((record: Record) =>
      if record.id == recordId then SaveSectionInRecord(record, weekId, sectionId, name, images) else record,
      prev.records))
  }

  /**
    `saveSection` keeps the shape of the tree and every Section's id, type and
    creation time; the Sections on the (Record, Week, Section) path get the new
    name and images, and every other Section is unchanged.
   */
  lemma SaveSectionWritesPath(prev: AppData, recordId: string, weekId: string, sectionId: string,
                              name: string, images: seq<string>)
    ensures var r := SaveSection(prev, recordId, weekId, sectionId, name, images);
      && SameShape(r, prev)
      && forall i, j, k ::
           0 <= i < |prev.records| && 0 <= j < |prev.records[i].weeks| && 0 <= k < |prev.records[i].weeks[j].sections| ==>
           var before, after := prev.records[i].weeks[j].sections[k], r.records[i].weeks[j].sections[k];
           && after.id == before.id && after.kind == before.kind && after.createdAt == before.createdAt
           && if prev.records[i].id == recordId && prev.records[i].weeks[j].id == weekId && before.id == sectionId
              then after.name == name && after.imageUrls == images
              else after == before
  {
    var r := SaveSection(prev, recordId, weekId, sectionId, name, images);
    forall i, j | 0 <= i < |prev.records| && 0 <= j < |prev.records[i].weeks|
      ensures SameWeekHeader(r.records[i].weeks[j], prev.records[i].weeks[j])
      ensures r.records[i].weeks[j] == if prev.records[i].id == recordId && prev.records[i].weeks[j].id == weekId
                                       then SaveSectionInWeek(prev.records[i].weeks[j], sectionId, name, images)
                                       else prev.records[i].weeks[j]
    {
    }
  }

  lemma SaveSectionIdempotent(prev: AppData, recordId: string, weekId: string, sectionId: string,
                              name: string, images: seq<string>)
    ensures var once := SaveSection(prev, recordId, weekId, sectionId, name, images);
      SaveSection(once, recordId, weekId, sectionId, name, images) == once
  {
    var once := SaveSection(prev, recordId, weekId, sectionId, name, images);
    SaveSectionWritesPath(prev, recordId, weekId, sectionId, name, images);
    SaveSectionWritesPath(once, recordId, weekId, sectionId, name, images);
    SameShapeAndSectionsEqual(SaveSection(once, recordId, weekId, sectionId, name, images), once);
  }

  lemma SaveSectionUnresolved(prev: AppData, recordId: string, weekId: string, sectionId: string,
                              name: string, images: seq<string>)
    requires FreshSectionId(prev, recordId, weekId, sectionId)
    ensures SaveSection(prev, recordId, weekId, sectionId, name, images) == prev
  {
    SaveSectionWritesPath(prev, recordId, weekId, sectionId, name, images);
    SameShapeAndSectionsEqual(SaveSection(prev, recordId, weekId, sectionId, name, images), prev);
  }
}
