/** The web app's alarm list (webapp/frontend/src/components/Hero.jsx): the
    list state is replaced wholesale by `setAlarms`, so adding and deleting
    are functions from the old list to the new one. */
module AlarmList {

  datatype Entry = Entry(id: int)

  /** `addAlarm`: appends an entry whose id is the list's length plus one. */
  function AddAlarm(alarms: seq<Entry>): (r: seq<Entry>)
    ensures |r| == |alarms| + 1
    ensures r[..|alarms|] == alarms
    ensures r[|alarms|].id == |alarms| + 1
  {
    alarms + [Entry(|alarms| + 1)]
  }

  /** The number of entries carrying `id`. */
  function Count(alarms: seq<Entry>, id: int): (n: nat)
    ensures n <= |alarms|
  {
    if alarms == [] then 0 else (if alarms[0].id == id then 1 else 0) + Count(alarms[1..], id)
  }

  /** `deleteAlarm`: `alarms.filter(alarm => alarm.id !== id)`. */
  function DeleteAlarm(alarms: seq<Entry>, id: int): (r: seq<Entry>)
    ensures |r| == |alarms| - Count(alarms, id)
    ensures forall e :: e in r ==> e in alarms && e.id != id
    ensures forall e :: e in alarms && e.id != id ==> e in r
  {
    if alarms == [] then []
    else (if alarms[0].id != id then [alarms[0]] else []) + DeleteAlarm(alarms[1..], id)
  }

  /** Deleting keeps the surviving entries in their order: it deletes from
      each part of a list separately. */
  lemma {:induction false} DeleteAlarmSplits(a: seq<Entry>, b: seq<Entry>, id: int)
    ensures DeleteAlarm(a + b, id) == DeleteAlarm(a, id) + DeleteAlarm(b, id)
  {
    if a != [] {
      assert (a + b)[1..] == a[1..] + b;
      DeleteAlarmSplits(a[1..], b, id);
    } else {
      assert a + b == b;
    }
  }

  /** Deleting an id that no entry carries leaves the list as it is. */
  lemma {:induction false} DeleteAbsent(alarms: seq<Entry>, id: int)
    requires forall k :: 0 <= k < |alarms| ==> alarms[k].id != id
    ensures DeleteAlarm(alarms, id) == alarms
  {
    if alarms != [] {
      DeleteAbsent(alarms[1..], id);
    }
  }

  predicate UniqueIds(alarms: seq<Entry>) {
    forall j, k :: 0 <= j < k < |alarms| ==> alarms[j].id != alarms[k].id
  }

  /** The ids `addAlarm` hands out collide once an alarm has been deleted:
      add, add, delete 1, add gives two entries with id 2, and deleting id 2
      then removes both. */
  lemma AddAfterDeleteDuplicatesId()
    ensures AddAlarm(AddAlarm([])) == [Entry(1), Entry(2)]
    ensures AddAlarm(DeleteAlarm([Entry(1), Entry(2)], 1)) == [Entry(2), Entry(2)]
    ensures !UniqueIds([Entry(2), Entry(2)])
    ensures DeleteAlarm([Entry(2), Entry(2)], 2) == []
  {
    assert DeleteAlarm([Entry(1), Entry(2)], 1) == [Entry(2)] by {
      assert [Entry(1), Entry(2)][1..] == [Entry(2)];
      assert [Entry(2)][1..] == [];
    }
    assert DeleteAlarm([Entry(2), Entry(2)], 2) == [] by {
      assert [Entry(2), Entry(2)][1..] == [Entry(2)];
      assert [Entry(2)][1..] == [];
    }
  }

  /** One more than every id in the list (and at least 1). */
  function NextId(alarms: seq<Entry>): (n: int)
    ensures n >= 1
    ensures forall k :: 0 <= k < |alarms| ==> alarms[k].id < n
  {
    if alarms == [] then 1
    else
      var rest := NextId(alarms[1..]);
      if alarms[0].id + 1 > rest then alarms[0].id + 1 else rest
  }

  /** Adding with an id above every id in use, the evidently intended rule. */
  function AddAlarmFresh(alarms: seq<Entry>): (r: seq<Entry>)
    ensures |r| == |alarms| + 1 && r[..|alarms|] == alarms
    ensures forall k :: 0 <= k < |alarms| ==> alarms[k].id != r[|alarms|].id
  {
    alarms + [Entry(NextId(alarms))]
  }

  /** With fresh ids, adding and deleting never make two entries share an id. */
  lemma AddAlarmFreshKeepsIdsUnique(alarms: seq<Entry>)
    requires UniqueIds(alarms)
    ensures UniqueIds(AddAlarmFresh(alarms))
  {
    var r := AddAlarmFresh(alarms);
    forall j, k | 0 <= j < k < |r| ensures r[j].id != r[k].id {
      if k < |alarms| {
        assert r[j] == alarms[j] && r[k] == alarms[k];
      } else {
        assert r[j] == alarms[j];
      }
    }
  }

  lemma {:induction false} DeleteAlarmKeepsIdsUnique(alarms: seq<Entry>, id: int)
    requires UniqueIds(alarms)
    ensures UniqueIds(DeleteAlarm(alarms, id))
  {
    if alarms != [] {
      var rest := DeleteAlarm(alarms[1..], id);
      DeleteAlarmKeepsIdsUnique(alarms[1..], id);
      if alarms[0].id != id {
        var r := [alarms[0]] + rest;
        forall j, k | 0 <= j < k < |r| ensures r[j].id != r[k].id {
          if j == 0 {
            assert r[k] in rest;
            assert r[k] in alarms[1..];
          } else {
            assert r[j] == rest[j - 1] && r[k] == rest[k - 1];
          }
        }
      } else {
        assert DeleteAlarm(alarms, id) == rest;
      }
    }
  }
}
