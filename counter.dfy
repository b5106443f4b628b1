/**
 * The counter screen: the local list of records, the total and today's
 * count, and whether the confirmation dialog is open. The handlers are
 * modelled after the server has answered; the answer is a parameter, and so
 * are the local calendar date of an instant and today's date.
 */
module Counter {
  import opened Types

  /** How the POST of a new record ended. */
  datatype SaveReply =
    | SaveHttpError               // response.ok was false
    | SaveRejected(error: string) // the body said success: false
    | Saved(record: PokyRecord)   // the body said success: true and carried the stored record

  /** How the DELETE of a record ended. */
  datatype DeleteReply = DeleteHttpError | DeleteRejected | Deleted

  /** The `isToday` test: same day of the month, same month, same year. */
  predicate SameDay(today: Date, d: Date)
  {
    today.day == d.day && today.month == d.month && today.year == d.year
  }

  /** Comparing the three components is comparing the dates. */
  lemma SameDayIsEquality(today: Date, d: Date)
    ensures SameDay(today, d) <==> today == d
  {
  }

  /** The local list without the records carrying the given id. */
  function RemoveById(records: seq<PokyRecord>, id: string): (r: seq<PokyRecord>)
    ensures |r| <= |records|
    ensures forall i :: 0 <= i < |r| ==> r[i].id != id
    ensures forall x :: x in r <==> x in records && x.id != id
  {
    if records == [] then []
    else (if records[0].id != id then [records[0]] else []) + RemoveById(records[1..], id)
  }

  /** Removing by id works part by part, so the remaining records keep their order. */
  lemma {:induction false} RemoveByIdAppend(a: seq<PokyRecord>, b: seq<PokyRecord>, id: string)
    ensures RemoveById(a + b, id) == RemoveById(a, id) + RemoveById(b, id)
    decreases |a|
  {
    if a == [] {
      assert a + b == b;
    } else {
      assert (a + b)[1..] == a[1..] + b;
      RemoveByIdAppend(a[1..], b, id);
    }
  }

  /** A list without the id is left as it is. */
  lemma {:induction false} RemoveAbsentId(records: seq<PokyRecord>, id: string)
    requires forall i :: 0 <= i < |records| ==> records[i].id != id
    ensures RemoveById(records, id) == records
    decreases |records|
  {
    if records != [] {
      RemoveAbsentId(records[1..], id);
    }
  }

  /** The first record with the id, if any. */
  function FindById(records: seq<PokyRecord>, id: string): (r: Option<PokyRecord>)
    ensures r.None? <==> forall i :: 0 <= i < |records| ==> records[i].id != id
    ensures r.Some? ==> exists k :: 0 <= k < |records| && records[k] == r.value
                         && r.value.id == id && forall i :: 0 <= i < k ==> records[i].id != id
  {
    if records == [] then None
    else if records[0].id == id then Some(records[0])
    else
      var r := FindById(records[1..], id);
      if r.Some? then
        var k :| 0 <= k < |records| - 1 && records[1..][k] == r.value
                 && r.value.id == id && forall i :: 0 <= i < k ==> records[1..][i].id != id;
        assert records[k + 1] == r.value;
        r
      else r
  }

  /** The first five records of the list (the newest, since saves prepend), shown under the button. */
  function Recent(records: seq<PokyRecord>): (r: seq<PokyRecord>)
    ensures |r| == if |records| < 5 then |records| else 5
    ensures forall i :: 0 <= i < |r| ==> r[i] == records[i]
  {
    if |records| < 5 then records else records[..5]
  }

  class CounterState {
    var records: seq<PokyRecord>
    var isDialogOpen: bool
    var totalCount: int
    var todayCount: int

    constructor ()
      ensures records == [] && !isDialogOpen && totalCount == 0 && todayCount == 0
    {
      records := [];
      isDialogOpen := false;
      totalCount := 0;
      todayCount := 0;
    }

    /** `handleCountClick`: opens the dialog. */
    method HandleCountClick()
      modifies this
      ensures isDialogOpen
      ensures records == old(records) && totalCount == old(totalCount) && todayCount == old(todayCount)
    {
      isDialogOpen := true;
    }

    /** `handleCancel`: closes the dialog and changes nothing else. */
    method HandleCancel()
      modifies this
      ensures !isDialogOpen
      ensures records == old(records) && totalCount == old(totalCount) && todayCount == old(todayCount)
    {
      isDialogOpen := false;
    }

    /**
     * `handleConfirm` after the server answered. `sentAt` is the instant the
     * client created and posted; `localDate` gives the local calendar date of
     * an instant. On success the stored record goes in front, the total grows
     * by one, today's count grows by one iff the posted instant falls on
     * today, and the dialog closes. On failure nothing changes.
     */
    method HandleConfirm(sentAt: int, reply: SaveReply, today: Date, localDate: int -> Date)
      modifies this
      ensures reply.Saved? ==> records == [reply.record] + old(records)
      ensures reply.Saved? ==> totalCount == old(totalCount) + 1
      ensures reply.Saved? ==> todayCount == old(todayCount) + (if SameDay(today, localDate(sentAt)) then 1 else 0)
      ensures reply.Saved? ==> !isDialogOpen
      ensures !reply.Saved? ==> records == old(records) && totalCount == old(totalCount)
                                && todayCount == old(todayCount) && isDialogOpen == old(isDialogOpen)
    {
      match reply {
        case Saved(saved) =>
          records := [saved] + records;
          if SameDay(today, localDate(sentAt)) {
            todayCount := todayCount + 1;
          }
          totalCount := totalCount + 1;
          isDialogOpen := false;
        case SaveHttpError =>
        case SaveRejected(_) =>
      }
    }

    /**
     * `handleDeleteRecord` after the user answered the confirmation and the
     * server answered the DELETE. On success every record with the id goes,
     * the total drops by one whatever the list held, and today's count drops
     * by one iff the list held a record with the id and the first such record
     * is from today. Declining or failing changes nothing.
     */
    method HandleDeleteRecord(id: string, confirmed: bool, reply: DeleteReply, today: Date, localDate: int -> Date)
      modifies this
      ensures confirmed && reply.Deleted? ==> records == RemoveById(old(records), id)
      ensures confirmed && reply.Deleted? ==> totalCount == old(totalCount) - 1
      ensures confirmed && reply.Deleted? ==>
        todayCount == old(todayCount) - (match FindById(old(records), id)
                                         case None => 0
                                         case Some(r) => if SameDay(today, localDate(r.timestamp)) then 1 else 0)
      ensures !(confirmed && reply.Deleted?) ==> records == old(records) && totalCount == old(totalCount)
                                                 && todayCount == old(todayCount)
      ensures isDialogOpen == old(isDialogOpen)
    {
      if !confirmed {
        return;
      }
      if reply.Deleted? {
        var deleted := FindById(records, id);
        records := RemoveById(records, id);
        totalCount := totalCount - 1;
        if deleted.Some? && SameDay(today, localDate(deleted.value.timestamp)) {
          todayCount := todayCount - 1;
        }
      }
    }
  }

  /**
   * Saving a record whose id is new and then deleting it restores the list and
   * the total; today's count is restored too when the stored instant and the
   * posted one fall on the same local day.
   */
  method SaveThenDelete(c: CounterState, saved: PokyRecord, sentAt: int, today: Date, localDate: int -> Date)
    requires forall i :: 0 <= i < |c.records| ==> c.records[i].id != saved.id
    requires localDate(saved.timestamp) == localDate(sentAt)
    modifies c
    ensures c.records == old(c.records)
    ensures c.totalCount == old(c.totalCount) && c.todayCount == old(c.todayCount)
    ensures !c.isDialogOpen
  {
    c.HandleConfirm(sentAt, Saved(saved), today, localDate);
    assert c.records == [saved] + old(c.records);
    RemoveByIdAppend([saved], old(c.records), saved.id);
    RemoveAbsentId(old(c.records), saved.id);
    c.HandleDeleteRecord(saved.id, true, Deleted, today, localDate);
  }
}
