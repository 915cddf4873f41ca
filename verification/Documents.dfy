/** Driver documents (internal/driver/repository.go, internal/admin/drivers.go): a chain of versions for
    each driver and document type, of which the last one stands. Both the driver and the admins add
    versions; an approved one the driver may replace only through a window an admin has opened. */
module Documents {

  import opened Options

  datatype Status = Pending | Approved | Rejected

  /** Whose document, and of which type. */
  datatype Slot = Slot(driver: nat, kind: nat)

  /** The position of a row is its id. `window` is a re-upload request not yet used. */
  datatype Row = Row(slot: Slot, file: string, status: Status, superseded: bool, window: bool)

  datatype Result = Ok | Locked | NotFound

  datatype Event =
    | Upload(slot: Slot, file: string, asAdmin: bool)
    | AdminUpload(slot: Slot, file: string)
    | Review(id: nat, status: Status)
    | RequestReupload(slot: Slot)

  predicate Live(r: Row, slot: Slot) { r.slot == slot && !r.superseded }

  /** The live version, if there is one. */
  function LiveId(rows: seq<Row>, slot: Slot): (id: Option<nat>)
    ensures id.Some? ==> id.value < |rows| && Live(rows[id.value], slot)
    ensures id == None ==> forall i :: 0 <= i < |rows| ==> !Live(rows[i], slot)
  {
    if rows == [] then None
    else if Live(rows[|rows| - 1], slot) then Some(|rows| - 1)
    else LiveId(rows[..|rows| - 1], slot)
  }

  function Fresh(slot: Slot, file: string): Row
  {
    Row(slot, file, Pending, false, false)
  }

  /** `UpsertDocument`: the old version is superseded and its window, if it has one, used up. */
  function Uploaded(rows: seq<Row>, slot: Slot, file: string, asAdmin: bool): (seq<Row>, Result)
  {
    var live := LiveId(rows, slot);
    if live == None then (rows + [Fresh(slot, file)], Ok)
    else
      var was := rows[live.value];
      if was.status == Approved && !was.window && !asAdmin then (rows, Locked)
      else (rows[live.value := was.(superseded := true, window := false)] + [Fresh(slot, file)], Ok)
  }

  /** `UpsertDriverDocument`, the console's own version: the window is left open on the old row. */
  function UploadedByAdmin(rows: seq<Row>, slot: Slot, file: string): seq<Row>
  {
    var live := LiveId(rows, slot);
    (if live == None then rows else rows[live.value := rows[live.value].(superseded := true)]) + [Fresh(slot, file)]
  }

  function Reviewed(rows: seq<Row>, id: nat, status: Status): (seq<Row>, Result)
  {
    if id >= |rows| || rows[id].superseded then (rows, NotFound) else (rows[id := rows[id].(status := status)], Ok)
  }

  function Requested(rows: seq<Row>, slot: Slot): (seq<Row>, Result)
  {
    var live := LiveId(rows, slot);
    if live == None then (rows, NotFound) else (rows[live.value := rows[live.value].(window := true)], Ok)
  }

  function Step(rows: seq<Row>, e: Event): seq<Row>
  {
    match e
    case Upload(slot, file, asAdmin) => Uploaded(rows, slot, file, asAdmin).0
    case AdminUpload(slot, file) => UploadedByAdmin(rows, slot, file)
    case Review(id, status) => Reviewed(rows, id, status).0
    case RequestReupload(slot) => Requested(rows, slot).0
  }

  function RunFrom(rows: seq<Row>, events: seq<Event>): seq<Row>
  {
    if events == [] then rows else Step(RunFrom(rows, events[..|events| - 1]), events[|events| - 1])
  }

  function Run(events: seq<Event>): seq<Row>
  {
    RunFrom([], events)
  }

  // ---------------------------------------------------------------- one version stands

  ghost predicate OneLive(rows: seq<Row>)
  {
    && (forall i, j :: 0 <= i < j < |rows| && rows[i].slot == rows[j].slot ==> rows[i].superseded || rows[j].superseded)
    && (forall i :: 0 <= i < |rows| ==> LiveId(rows, rows[i].slot).Some?)
  }

  lemma HasLive(rows: seq<Row>, i: nat, slot: Slot)
    requires i < |rows| && Live(rows[i], slot)
    ensures LiveId(rows, slot).Some?
  {
  }

  /** All slots but one have a live version, and none has two. */
  ghost predicate OneLiveBut(rows: seq<Row>, slot: Slot)
  {
    && (forall i, j :: 0 <= i < j < |rows| && rows[i].slot == rows[j].slot ==> rows[i].superseded || rows[j].superseded)
    && (forall i :: 0 <= i < |rows| ==> (LiveId(rows, rows[i].slot).Some? <==> rows[i].slot != slot))
  }

  lemma SupersedeLeavesOthers(rows: seq<Row>, slot: Slot, window: bool)
    requires OneLive(rows) && LiveId(rows, slot).Some?
    ensures var live := LiveId(rows, slot).value;
            OneLiveBut(rows[live := rows[live].(superseded := true, window := window)], slot)
  {
    var live := LiveId(rows, slot).value;
    var t := rows[live := rows[live].(superseded := true, window := window)];
    forall i | 0 <= i < |t| ensures LiveId(t, t[i].slot).Some? <==> t[i].slot != slot {
      if t[i].slot != slot {
        HasLive(t, LiveId(rows, rows[i].slot).value, t[i].slot);
      }
    }
  }

  lemma AppendKeepsOneLive(rows: seq<Row>, slot: Slot, next: Row)
    requires OneLiveBut(rows, slot) && Live(next, slot)
    ensures OneLive(rows + [next])
  {
    var t := rows + [next];
    forall i | 0 <= i < |t| ensures LiveId(t, t[i].slot).Some? {
      if t[i].slot == slot {
        HasLive(t, |rows|, slot);
      } else {
        HasLive(t, LiveId(rows, rows[i].slot).value, t[i].slot);
      }
    }
    forall i | 0 <= i < |rows| && rows[i].slot == slot ensures rows[i].superseded {
      assert LiveId(rows, rows[i].slot) == None;
    }
  }

  /** Replacing the live version of a slot, if any, by a fresh one. */
  lemma ReplaceKeepsOneLive(rows: seq<Row>, slot: Slot, window: bool, next: Row)
    requires OneLive(rows) && Live(next, slot)
    ensures var live := LiveId(rows, slot);
            OneLive((if live == None then rows else rows[live.value := rows[live.value].(superseded := true, window := window)]) + [next])
  {
    var live := LiveId(rows, slot);
    if live == None {
      assert OneLiveBut(rows, slot);
      AppendKeepsOneLive(rows, slot, next);
    } else {
      SupersedeLeavesOthers(rows, slot, window);
      AppendKeepsOneLive(rows[live.value := rows[live.value].(superseded := true, window := window)], slot, next);
    }
  }

  lemma UpdateKeepsOneLive(rows: seq<Row>, id: nat, row: Row)
    requires OneLive(rows) && id < |rows| && row.slot == rows[id].slot && row.superseded == rows[id].superseded
    ensures OneLive(rows[id := row])
  {
    var t := rows[id := row];
    forall i | 0 <= i < |t| ensures LiveId(t, t[i].slot).Some? {
      HasLive(t, LiveId(rows, rows[i].slot).value, t[i].slot);
    }
  }

  lemma StepKeepsOneLive(rows: seq<Row>, e: Event)
    requires OneLive(rows)
    ensures OneLive(Step(rows, e))
  {
    match e
    case Upload(slot, file, asAdmin) => ReplaceKeepsOneLive(rows, slot, false, Fresh(slot, file));
    case AdminUpload(slot, file) =>
      var live := LiveId(rows, slot);
      ReplaceKeepsOneLive(rows, slot, live.Some? && rows[live.value].window, Fresh(slot, file));
    case Review(id, status) =>
      if id < |rows| && !rows[id].superseded { UpdateKeepsOneLive(rows, id, rows[id].(status := status)); }
    case RequestReupload(slot) =>
      var live := LiveId(rows, slot);
      if live.Some? { UpdateKeepsOneLive(rows, live.value, rows[live.value].(window := true)); }
  }

  /** In every run, a driver who ever had a document of a type has exactly one version that stands. */
  lemma {:induction false} RunKeepsOneLive(events: seq<Event>)
    ensures OneLive(Run(events))
  {
    if events != [] {
      RunKeepsOneLive(events[..|events| - 1]);
      StepKeepsOneLive(Run(events[..|events| - 1]), events[|events| - 1]);
    }
  }

  // ---------------------------------------------------------------- what stays for ever

  /** What may become of a row: it keeps its file; superseded, it keeps its review status and stays so. */
  predicate Follows(r: Row, t: Row)
  {
    t.slot == r.slot && t.file == r.file && (r.superseded ==> t == r)
  }

  lemma StepFollows(rows: seq<Row>, e: Event, i: nat)
    requires i < |rows|
    ensures i < |Step(rows, e)| && Follows(rows[i], Step(rows, e)[i])
    ensures Step(rows, e)[i].status != rows[i].status ==> e == Review(i, Step(rows, e)[i].status)
  {
  }

  /** Versions are never lost, a file never changes, and a superseded version stays exactly as it was:
      which file was approved can be told for ever. */
  lemma {:induction false} VersionsAreForGood(rows: seq<Row>, events: seq<Event>, i: nat)
    requires i < |rows|
    ensures i < |RunFrom(rows, events)| && Follows(rows[i], RunFrom(rows, events)[i])
  {
    if events != [] {
      var n := |events| - 1;
      VersionsAreForGood(rows, events[..n], i);
      StepFollows(RunFrom(rows, events[..n]), events[n], i);
    }
  }

  lemma NewRowsArePending(rows: seq<Row>, e: Event, i: nat)
    requires |rows| <= i < |Step(rows, e)|
    ensures Step(rows, e)[i].status == Pending
  {
  }

  ghost predicate WasReviewed(events: seq<Event>, i: nat, status: Status)
  {
    exists k :: 0 <= k < |events| && events[k] == Review(i, status)
  }

  /** No upload approves anything: a version is approved, or rejected, only by a review of itself. */
  lemma {:induction false} StatusComesFromReview(events: seq<Event>, i: nat)
    requires i < |Run(events)| && Run(events)[i].status != Pending
    ensures WasReviewed(events, i, Run(events)[i].status)
  {
    var n := |events| - 1;
    var before := Run(events[..n]);
    if i < |before| {
      StepFollows(before, events[n], i);
      if before[i].status == Run(events)[i].status {
        StatusComesFromReview(events[..n], i);
        var k :| 0 <= k < n && events[..n][k] == Review(i, before[i].status);
        assert events[k] == Review(i, before[i].status);
      }
    } else {
      NewRowsArePending(before, events[n], i);
    }
  }

  // ---------------------------------------------------------------- the re-upload window

  function Open(rows: seq<Row>, slot: Slot): nat
  {
    var live := LiveId(rows, slot);
    if live.Some? && rows[live.value].window then 1 else 0
  }

  /** The driver replaces an approved version. */
  function IsReplacement(rows: seq<Row>, e: Event, slot: Slot): nat
  {
    var live := LiveId(rows, slot);
    if e.Upload? && e.slot == slot && !e.asAdmin && live.Some? && rows[live.value].status == Approved
       && Uploaded(rows, slot, e.file, false).1 == Ok then 1 else 0
  }

  function IsRequest(e: Event, slot: Slot): nat
  {
    if e == RequestReupload(slot) then 1 else 0
  }

  function Replacements(events: seq<Event>, slot: Slot): nat
  {
    if events == [] then 0
    else
      var n := |events| - 1;
      Replacements(events[..n], slot) + IsReplacement(Run(events[..n]), events[n], slot)
  }

  function Requests(events: seq<Event>, slot: Slot): nat
  {
    if events == [] then 0 else Requests(events[..|events| - 1], slot) + IsRequest(events[|events| - 1], slot)
  }

  /** The live version does not depend on the order of the search. */
  lemma LiveIs(rows: seq<Row>, i: nat, slot: Slot)
    requires OneLive(rows) && i < |rows| && Live(rows[i], slot)
    ensures LiveId(rows, slot) == Some(i)
  {
  }

  lemma OpenAfterUpdate(rows: seq<Row>, id: nat, row: Row, slot: Slot)
    requires OneLive(rows) && id < |rows| && !rows[id].superseded && !row.superseded && row.slot == rows[id].slot
    ensures Open(rows[id := row], slot) == if row.slot == slot then (if row.window then 1 else 0) else Open(rows, slot)
  {
    var t := rows[id := row];
    UpdateKeepsOneLive(rows, id, row);
    if row.slot == slot {
      LiveIs(t, id, slot);
    } else if LiveId(rows, slot).Some? {
      LiveIs(t, LiveId(rows, slot).value, slot);
    }
  }

  lemma OpenAfterReplace(rows: seq<Row>, e: Event, slot: Slot)
    requires OneLive(rows) && (e.AdminUpload? || (e.Upload? && Uploaded(rows, e.slot, e.file, e.asAdmin).1 == Ok))
    ensures Open(Step(rows, e), slot) == if e.slot == slot then 0 else Open(rows, slot)
  {
    var t := Step(rows, e);
    StepKeepsOneLive(rows, e);
    LiveIs(t, |t| - 1, e.slot);
    if e.slot != slot && LiveId(rows, slot).Some? {
      LiveIs(t, LiveId(rows, slot).value, slot);
    }
  }

  lemma StepWindow(rows: seq<Row>, e: Event, slot: Slot)
    requires OneLive(rows)
    ensures IsReplacement(rows, e, slot) + Open(Step(rows, e), slot) <= Open(rows, slot) + IsRequest(e, slot)
  {
    match e
    case Upload(s, file, asAdmin) => if Uploaded(rows, s, file, asAdmin).1 == Ok { OpenAfterReplace(rows, e, slot); }
    case AdminUpload(s, file) => OpenAfterReplace(rows, e, slot);
    case Review(id, status) =>
      if id < |rows| && !rows[id].superseded {
        OpenAfterUpdate(rows, id, rows[id].(status := status), slot);
        if rows[id].slot == slot { LiveIs(rows, id, slot); }
      }
    case RequestReupload(s) =>
      var live := LiveId(rows, s);
      if live.Some? { OpenAfterUpdate(rows, live.value, rows[live.value].(window := true), slot); }
  }

  /** A window is good for one replacement: however the admins and the driver act, the driver replaces
      approved versions no more often than he was asked to. */
  lemma {:induction false} ReplacementsAreRequested(events: seq<Event>, slot: Slot)
    ensures Replacements(events, slot) + Open(Run(events), slot) <= Requests(events, slot)
  {
    if events != [] {
      var n := |events| - 1;
      ReplacementsAreRequested(events[..n], slot);
      RunKeepsOneLive(events[..n]);
      StepWindow(Run(events[..n]), events[n], slot);
    }
  }

  // ---------------------------------------------------------------- what stands

  /** The version that stands for one driver and type. */
  datatype Doc = Doc(id: nat, file: string, status: Status, window: bool)

  function Standing(rows: seq<Row>, slot: Slot): Option<Doc>
  {
    var live := LiveId(rows, slot);
    if live == None then None
    else Some(Doc(live.value, rows[live.value].file, rows[live.value].status, rows[live.value].window))
  }

  /** An upload by the driver is turned away only by an approved document without an open window. */
  predicate Accepts(d: Option<Doc>, asAdmin: bool)
  {
    d == None || d.value.status != Approved || d.value.window || asAdmin
  }

  /** The life of one document by itself. `next` is the id an upload would get. */
  function DocStep(d: Option<Doc>, e: Event, slot: Slot, next: nat): Option<Doc>
  {
    match e
    case Upload(s, file, asAdmin) => if s == slot && Accepts(d, asAdmin) then Some(Doc(next, file, Pending, false)) else d
    case AdminUpload(s, file) => if s == slot then Some(Doc(next, file, Pending, false)) else d
    case Review(id, status) => if d.Some? && d.value.id == id then Some(d.value.(status := status)) else d
    case RequestReupload(s) => if s == slot && d.Some? then Some(d.value.(window := true)) else d
  }

  predicate Replaces(rows: seq<Row>, e: Event)
  {
    e.AdminUpload? || (e.Upload? && Uploaded(rows, e.slot, e.file, e.asAdmin).1 == Ok)
  }

  lemma NewOneStands(rows: seq<Row>, e: Event)
    requires OneLive(rows) && Replaces(rows, e)
    ensures Standing(Step(rows, e), e.slot) == Some(Doc(|rows|, e.file, Pending, false))
  {
    StepKeepsOneLive(rows, e);
    LiveIs(Step(rows, e), |rows|, e.slot);
  }

  /** What stood elsewhere before the upload still does. */
  lemma StillLive(rows: seq<Row>, e: Event, slot: Slot, i: nat)
    requires OneLive(rows) && Replaces(rows, e) && e.slot != slot && i < |rows|
    ensures i < |Step(rows, e)|
    ensures rows[i].slot == slot ==> Step(rows, e)[i] == rows[i]
    ensures Step(rows, e)[i].slot == rows[i].slot
  {
  }

  lemma NoneEver(rows: seq<Row>, slot: Slot, i: nat)
    requires OneLive(rows) && LiveId(rows, slot) == None && i < |rows|
    ensures rows[i].slot != slot
  {
  }

  lemma NoneLive(rows: seq<Row>, e: Event, slot: Slot)
    requires OneLive(rows) && Replaces(rows, e) && e.slot != slot && LiveId(rows, slot) == None
    ensures LiveId(Step(rows, e), slot) == None
  {
    var t := Step(rows, e);
    assert |t| == |rows| + 1 && t[|rows|].slot == e.slot;
    forall i | 0 <= i < |rows| ensures t[i].slot != slot {
      StillLive(rows, e, slot, i);
      NoneEver(rows, slot, i);
    }
  }

  lemma OthersStand(rows: seq<Row>, e: Event, slot: Slot)
    requires OneLive(rows) && Replaces(rows, e) && e.slot != slot
    ensures Standing(Step(rows, e), slot) == Standing(rows, slot)
  {
    StepKeepsOneLive(rows, e);
    if LiveId(rows, slot).Some? {
      var i := LiveId(rows, slot).value;
      StillLive(rows, e, slot, i);
      LiveIs(Step(rows, e), i, slot);
    } else {
      NoneLive(rows, e, slot);
    }
  }

  lemma StandsAfterUpdate(rows: seq<Row>, id: nat, row: Row, slot: Slot)
    requires OneLive(rows) && id < |rows| && !rows[id].superseded && !row.superseded && row.slot == rows[id].slot
    ensures Standing(rows[id := row], slot)
            == if row.slot == slot then Some(Doc(id, row.file, row.status, row.window)) else Standing(rows, slot)
  {
    var t := rows[id := row];
    UpdateKeepsOneLive(rows, id, row);
    if row.slot == slot {
      LiveIs(t, id, slot);
    } else if LiveId(rows, slot).Some? {
      LiveIs(t, LiveId(rows, slot).value, slot);
    } else if LiveId(t, slot).Some? {
      LiveIs(rows, LiveId(t, slot).value, slot);
    }
  }

  lemma StepStands(rows: seq<Row>, e: Event, slot: Slot)
    requires OneLive(rows)
    ensures Standing(Step(rows, e), slot) == DocStep(Standing(rows, slot), e, slot, |rows|)
  {
    match e
    case Upload(s, file, asAdmin) => if Replaces(rows, e) { if s == slot { NewOneStands(rows, e); } else { OthersStand(rows, e, slot); } }
    case AdminUpload(s, file) => if s == slot { NewOneStands(rows, e); } else { OthersStand(rows, e, slot); }
    case Review(id, status) =>
      if id < |rows| && !rows[id].superseded {
        StandsAfterUpdate(rows, id, rows[id].(status := status), slot);
        LiveIs(rows, id, rows[id].slot);
      }
    case RequestReupload(s) =>
      var live := LiveId(rows, s);
      if live.Some? { StandsAfterUpdate(rows, live.value, rows[live.value].(window := true), slot); }
  }

  function DocRun(events: seq<Event>, slot: Slot): Option<Doc>
  {
    if events == [] then None
    else
      var n := |events| - 1;
      DocStep(DocRun(events[..n], slot), events[n], slot, |Run(events[..n])|)
  }

  /** In every run what stands for a driver and type is what its own uploads, reviews and requests have made
      of it: the last file accepted, with the last review of that version; and whether an upload is accepted
      depends on that alone. */
  lemma {:induction false} StandsByItself(events: seq<Event>, slot: Slot, file: string, asAdmin: bool)
    ensures Standing(Run(events), slot) == DocRun(events, slot)
    ensures Uploaded(Run(events), slot, file, asAdmin).1 == Ok <==> Accepts(DocRun(events, slot), asAdmin)
  {
    if events != [] {
      var n := |events| - 1;
      StandsByItself(events[..n], slot, file, asAdmin);
      RunKeepsOneLive(events[..n]);
      StepStands(Run(events[..n]), events[n], slot);
    }
  }

  /** The answers: an upload is done or locked out; a review finds exactly the versions that stand, and a
      request for a new upload any document there ever was. What is not done changes nothing. */
  lemma AnswersAre(events: seq<Event>, slot: Slot, file: string, asAdmin: bool, id: nat, status: Status)
    ensures var rows := Run(events); var (after, r) := Uploaded(rows, slot, file, asAdmin);
            r == (if Accepts(Standing(rows, slot), asAdmin) then Ok else Locked) && (r != Ok ==> after == rows)
    ensures var rows := Run(events); var (after, r) := Reviewed(rows, id, status);
            r == (if exists s: Slot :: Standing(rows, s).Some? && Standing(rows, s).value.id == id then Ok else NotFound)
            && (r != Ok ==> after == rows)
    ensures var rows := Run(events); var (after, r) := Requested(rows, slot);
            r == (if exists i :: 0 <= i < |rows| && rows[i].slot == slot then Ok else NotFound) && (r != Ok ==> after == rows)
  {
    var rows := Run(events);
    RunKeepsOneLive(events);
    if id < |rows| && !rows[id].superseded {
      LiveIs(rows, id, rows[id].slot);
      assert Standing(rows, rows[id].slot).Some?;
    }
  }

  // ---------------------------------------------------------------- what the driver is shown

  datatype Shown = Shown(id: nat, kind: nat, file: string, editable: bool)

  function ShownOf(id: nat, r: Row): Shown
  {
    Shown(id, r.slot.kind, r.file, r.status != Approved || r.window)
  }

  function Listed(rows: seq<Row>, driver: nat): seq<Shown>
  {
    if rows == [] then []
    else
      var n := |rows| - 1;
      Listed(rows[..n], driver) + if rows[n].slot.driver == driver && !rows[n].superseded then [ShownOf(n, rows[n])] else []
  }

  lemma {:induction false} ListedAre(rows: seq<Row>, driver: nat, d: Shown)
    ensures d in Listed(rows, driver) <==>
            d.id < |rows| && !rows[d.id].superseded && rows[d.id].slot.driver == driver && d == ShownOf(d.id, rows[d.id])
  {
    if rows != [] {
      ListedAre(rows[..|rows| - 1], driver, d);
    }
  }

  /** What the list shows as editable is what the upload accepts, in every run and for any file; and of
      a type the list does not show, any file is accepted. */
  lemma EditableIffUploadable(events: seq<Event>, driver: nat, kind: nat, file: string)
    ensures var rows := Run(events);
            && (forall d | d in Listed(rows, driver) && d.kind == kind ::
                  d.editable <==> Uploaded(rows, Slot(driver, kind), file, false).1 == Ok)
            && ((forall d <- Listed(rows, driver) :: d.kind != kind) ==> Uploaded(rows, Slot(driver, kind), file, false).1 == Ok)
  {
    var rows := Run(events);
    var slot := Slot(driver, kind);
    RunKeepsOneLive(events);
    forall d | d in Listed(rows, driver) && d.kind == kind ensures d.editable <==> Uploaded(rows, slot, file, false).1 == Ok {
      ListedAre(rows, driver, d);
      LiveIs(rows, d.id, slot);
    }
    var live := LiveId(rows, slot);
    if live.Some? {
      ListedAre(rows, driver, ShownOf(live.value, rows[live.value]));
    }
  }

  // ---------------------------------------------------------------- the table

  class Table {
    var rows: seq<Row>

    constructor ()
      ensures rows == []
    {
      rows := [];
    }

    method UpsertDocument(slot: Slot, file: string, asAdmin: bool) returns (r: Result)
      modifies this
      ensures (rows, r) == Uploaded(old(rows), slot, file, asAdmin)
    {
      var live := LiveId(rows, slot);
      var reuploadOpen := false;
      if live.Some? {
        var was := rows[live.value];
        reuploadOpen := was.window;
        if was.status == Approved && !reuploadOpen && !asAdmin {
          return Locked;
        }
        rows := rows[live.value := was.(superseded := true)];
      }
      rows := rows + [Row(slot, file, Pending, false, false)];
      if reuploadOpen {
        rows := rows[live.value := rows[live.value].(window := false)];
      }
      assert rows == Uploaded(old(rows), slot, file, asAdmin).0;
      return Ok;
    }

    method UpsertDriverDocument(slot: Slot, file: string)
      modifies this
      ensures rows == UploadedByAdmin(old(rows), slot, file)
    {
      var live := LiveId(rows, slot);
      if live.Some? {
        rows := rows[live.value := rows[live.value].(superseded := true)];
      }
      rows := rows + [Row(slot, file, Pending, false, false)];
    }

    method SetDocumentReview(id: nat, status: Status) returns (r: Result)
      modifies this
      ensures (rows, r) == Reviewed(old(rows), id, status)
    {
      if id >= |rows| || rows[id].superseded {
        return NotFound;
      }
      rows := rows[id := rows[id].(status := status)];
      return Ok;
    }

    method RequestDocumentReupload(slot: Slot) returns (r: Result)
      modifies this
      ensures (rows, r) == Requested(old(rows), slot)
    {
      var live := LiveId(rows, slot);
      if live == None {
        return NotFound;
      }
      rows := rows[live.value := rows[live.value].(window := true)];
      return Ok;
    }

    method ListDocuments(driver: nat) returns (docs: seq<Shown>)
      ensures docs == Listed(rows, driver)
    {
      docs := [];
      for i := 0 to |rows|
        invariant docs == Listed(rows[..i], driver)
      {
        assert rows[..i + 1][..i] == rows[..i];
        if rows[i].slot.driver == driver && !rows[i].superseded {
          docs := docs + [Shown(i, rows[i].slot.kind, rows[i].file, rows[i].status != Approved || rows[i].window)];
        }
      }
      assert rows[..|rows|] == rows;
    }
  }
}
