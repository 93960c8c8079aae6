// A bucket of desired records that share one revision counter, with the records that
// plugin instances acknowledged (ensureDesiredService, ensureDesiredBlocks, nextRevision,
// the NeedsApply and MarkApplied pairs in internal/policy/desired.go).
module RevisionTable {
  import opened Prelude

  datatype Row<P> = Row(revision: u64, payload: P)

  datatype Table<K, P> = Table(rows: map<K, Row<P>>, revision: u64)

  datatype Want<K, P> = Want(key: K, payload: P)

  // The stored acknowledgement of a plugin instance.
  datatype Ack<P> = Ack(instance: Id, row: Row<P>)

  // A record is rewritten, under the next revision, only when its contents change.
  function Ensure<K(==), P(==)>(t: Table<K, P>, w: Want<K, P>): Result<Table<K, P>, ()> {
    if w.key in t.rows && t.rows[w.key].payload == w.payload then Ok(t)
    else if t.revision >= MAX_INT64 then Err(())
    else Ok(Table(t.rows[w.key := Row(t.revision + 1, w.payload)], t.revision + 1))
  }

  function EnsureAll<K(==), P(==)>(t: Table<K, P>, ws: seq<Want<K, P>>): Result<Table<K, P>, ()>
    decreases |ws|
  {
    if ws == [] then Ok(t)
    else
      var r := EnsureAll(t, ws[..|ws| - 1]);
      if r.Err? then r else Ensure(r.value, ws[|ws| - 1])
  }

  function NeedsApply<K(==), P(==)>(applied: map<K, Ack<P>>, key: K, row: Row<P>, instance: Id): bool {
    !(key in applied && applied[key].instance == instance && applied[key].row == row)
  }

  function MarkApplied<K(==), P(==)>(t: Table<K, P>, applied: map<K, Ack<P>>, key: K, row: Row<P>, instance: Id)
    : Result<map<K, Ack<P>>, ()>
  {
    if key !in t.rows || t.rows[key] != row then Err(())
    else Ok(applied[key := Ack(instance, row)])
  }

  // ---- What the wants determine ----

  // A key is wanted in one way only.
  ghost predicate Consistent<K(!new), P(!new)>(ws: seq<Want<K, P>>) {
    forall i, j :: 0 <= i < |ws| && 0 <= j < |ws| && ws[i].key == ws[j].key ==> ws[i] == ws[j]
  }

  ghost predicate Meets<K, P>(t: Table<K, P>, w: Want<K, P>) {
    w.key in t.rows && t.rows[w.key].payload == w.payload
  }

  lemma {:induction false} EnsureAllMeets<K(!new), P(!new)>(t: Table<K, P>, ws: seq<Want<K, P>>)
    requires EnsureAll(t, ws).Ok? && Consistent(ws)
    ensures forall w :: w in ws ==> Meets(EnsureAll(t, ws).value, w)
    decreases |ws|
  {
    if ws != [] {
      var front := ws[..|ws| - 1];
      assert Consistent(front);
      EnsureAllMeets(t, front);
      assert forall w :: w in ws <==> w in front || w == ws[|ws| - 1];
      assert forall w :: w in front && w.key == ws[|ws| - 1].key ==> w == ws[|ws| - 1];
    }
  }

  // A record that is not asked for is left alone.
  lemma {:induction false} EnsureAllFrame<K, P>(t: Table<K, P>, ws: seq<Want<K, P>>, key: K)
    requires EnsureAll(t, ws).Ok? && forall w :: w in ws ==> w.key != key
    ensures var t' := EnsureAll(t, ws).value;
            (key in t'.rows <==> key in t.rows) && (key in t.rows ==> t'.rows[key] == t.rows[key])
    decreases |ws|
  {
    if ws != [] {
      EnsureAllFrame(t, ws[..|ws| - 1], key);
      assert ws[|ws| - 1] in ws;
    }
  }

  // Asking again for what is already there changes nothing.
  lemma {:induction false} EnsureAllStable<K, P>(t: Table<K, P>, ws: seq<Want<K, P>>)
    requires forall w :: w in ws ==> Meets(t, w)
    ensures EnsureAll(t, ws) == Ok(t)
    decreases |ws|
  {
    if ws != [] {
      EnsureAllStable(t, ws[..|ws| - 1]);
      assert ws[|ws| - 1] in ws;
    }
  }

  // The keys of the records that EnsureAll has to write.
  ghost function Unmet<K, P>(t: Table<K, P>, ws: seq<Want<K, P>>): set<K> {
    set w | w in ws && !Meets(t, w) :: w.key
  }

  lemma UnmetMore<K(!new), P(!new)>(t: Table<K, P>, ws: seq<Want<K, P>>)
    requires ws != [] && Consistent(ws)
    ensures var front, last := ws[..|ws| - 1], ws[|ws| - 1];
            && Unmet(t, ws) == (if Meets(t, last) then Unmet(t, front) else Unmet(t, front) + {last.key})
            && (last in front ==> Unmet(t, ws) == Unmet(t, front))
            && (last !in front ==> last.key !in Unmet(t, front) && forall w :: w in front ==> w.key != last.key)
  {
    var front, last := ws[..|ws| - 1], ws[|ws| - 1];
    assert forall w :: w in ws <==> w in front || w == last;
    forall w | w in front && w.key == last.key
      ensures w == last
    {
      assert w in ws && last in ws;
    }
  }

  // It fails exactly when the revisions left do not suffice for them, in whatever order they
  // are wanted.
  lemma {:induction false} EnsureAllFits<K(!new), P(!new)>(t: Table<K, P>, ws: seq<Want<K, P>>)
    requires Consistent(ws)
    ensures EnsureAll(t, ws).Ok? <==> Unmet(t, ws) == {} || t.revision + |Unmet(t, ws)| <= MAX_INT64
    ensures EnsureAll(t, ws).Ok? ==> EnsureAll(t, ws).value.revision == t.revision + |Unmet(t, ws)|
    decreases |ws|
  {
    if ws != [] {
      var front, last := ws[..|ws| - 1], ws[|ws| - 1];
      assert Consistent(front);
      EnsureAllFits(t, front);
      UnmetMore(t, ws);
      if EnsureAll(t, front).Ok? {
        if last in front {
          EnsureAllMeets(t, front);
        } else {
          EnsureAllFrame(t, front, last.key);
        }
      }
    }
  }

  // A record after EnsureAll is either an old one or one that was asked for, newly written.
  ghost predicate OldRow<K, P>(t: Table<K, P>, k: K, row: Row<P>) { k in t.rows && t.rows[k] == row }

  lemma {:induction false} EnsureAllOrigin<K, P>(t: Table<K, P>, ws: seq<Want<K, P>>, key: K)
    requires EnsureAll(t, ws).Ok? && key in EnsureAll(t, ws).value.rows
    ensures var t' := EnsureAll(t, ws).value;
            && t.revision <= t'.revision
            && (OldRow(t, key, t'.rows[key])
                || (t'.rows[key].revision > t.revision && Want(key, t'.rows[key].payload) in ws))
    decreases |ws|
  {
    if ws != [] {
      var front, last := ws[..|ws| - 1], ws[|ws| - 1];
      var t1 := EnsureAll(t, front).value;
      assert Ensure(t1, last).Ok?;
      if key in t1.rows {
        EnsureAllOrigin(t, front, key);
      } else {
        EnsureAllGrows(t, front);
      }
      assert last in ws && forall w :: w in front ==> w in ws;
    }
  }

  lemma {:induction false} EnsureAllGrows<K, P>(t: Table<K, P>, ws: seq<Want<K, P>>)
    requires EnsureAll(t, ws).Ok?
    ensures t.revision <= EnsureAll(t, ws).value.revision
    decreases |ws|
  {
    if ws != [] {
      EnsureAllGrows(t, ws[..|ws| - 1]);
    }
  }

  // ---- A revision names one content ----

  datatype Entry<K, P> = Entry(key: K, row: Row<P>)

  // The records as EnsureAll returns them, one for each want.
  ghost function Recorded<K, P>(t: Table<K, P>, ws: seq<Want<K, P>>): seq<Entry<K, P>>
    requires EnsureAll(t, ws).Ok?
    decreases |ws|
  {
    if ws == [] then []
    else
      var last := ws[|ws| - 1];
      Recorded(t, ws[..|ws| - 1]) + [Entry(last.key, EnsureAll(t, ws).value.rows[last.key])]
  }

  // They are still the current ones at the end.
  lemma {:induction false} RecordedIsCurrent<K(!new), P(!new)>(t: Table<K, P>, ws: seq<Want<K, P>>, e: Entry<K, P>)
    requires EnsureAll(t, ws).Ok? && Consistent(ws)
    ensures var rows := EnsureAll(t, ws).value.rows;
            e in Recorded(t, ws) <==> exists w :: w in ws && w.key in rows && e == Entry(w.key, rows[w.key])
    decreases |ws|
  {
    if ws != [] {
      var front, last := ws[..|ws| - 1], ws[|ws| - 1];
      var before, rows := EnsureAll(t, front).value.rows, EnsureAll(t, ws).value.rows;
      assert Consistent(front);
      RecordedIsCurrent(t, front, e);
      EnsureAllMeets(t, front);
      assert last in ws && forall w :: w in front ==> w in ws;
      forall w | w in front
        ensures w.key in rows && rows[w.key] == before[w.key]
      {
        assert Meets(EnsureAll(t, front).value, w);
      }
    }
  }

  // Every record written on the way to EnsureAll(t, ws).
  ghost function WrittenBy<K, P>(t: Table<K, P>, ws: seq<Want<K, P>>): set<Entry<K, P>>
    requires EnsureAll(t, ws).Ok?
  {
    set e | e in Recorded(t, ws)
  }

  // The records ever written: all current ones, every acknowledged one, none for a key
  // after its current one, and no two with the same revision.
  ghost predicate HistoryOk<K(!new), P(!new)>(t: Table<K, P>, applied: map<K, Ack<P>>, history: set<Entry<K, P>>) {
    && (forall k :: k in t.rows ==> Entry(k, t.rows[k]) in history)
    && (forall k :: k in applied ==> Entry(k, applied[k].row) in history)
    && (forall e :: e in history ==> 1 <= e.row.revision <= t.revision)
    && (forall e :: e in history && e.key in t.rows ==> e.row.revision <= t.rows[e.key].revision)
    && forall e, e' :: e in history && e' in history && e.row.revision == e'.row.revision ==> e == e'
  }

  lemma EnsureKeepsHistory<K(!new), P(!new)>(t: Table<K, P>, applied: map<K, Ack<P>>, history: set<Entry<K, P>>, w: Want<K, P>)
    requires HistoryOk(t, applied, history) && Ensure(t, w).Ok?
    ensures var t' := Ensure(t, w).value;
            && w.key in t'.rows
            && HistoryOk(t', applied, history + {Entry(w.key, t'.rows[w.key])})
  {
    var t' := Ensure(t, w).value;
    if t' == t {
      assert history + {Entry(w.key, t'.rows[w.key])} == history;
    }
  }

  lemma WrittenByMore<K, P>(t: Table<K, P>, ws: seq<Want<K, P>>)
    requires EnsureAll(t, ws).Ok? && ws != []
    ensures var last := ws[|ws| - 1];
            WrittenBy(t, ws) == WrittenBy(t, ws[..|ws| - 1]) + {Entry(last.key, EnsureAll(t, ws).value.rows[last.key])}
  {
  }

  lemma {:induction false} EnsureAllKeepsHistory<K(!new), P(!new)>(t: Table<K, P>, applied: map<K, Ack<P>>,
                                                                  history: set<Entry<K, P>>, ws: seq<Want<K, P>>)
    requires HistoryOk(t, applied, history) && EnsureAll(t, ws).Ok?
    ensures HistoryOk(EnsureAll(t, ws).value, applied, history + WrittenBy(t, ws))
    decreases |ws|
  {
    if ws == [] {
      assert history + WrittenBy(t, ws) == history;
    } else {
      var front, last := ws[..|ws| - 1], ws[|ws| - 1];
      var before := history + WrittenBy(t, front);
      EnsureAllKeepsHistory(t, applied, history, front);
      EnsureKeepsHistory(EnsureAll(t, front).value, applied, before, last);
      WrittenByMore(t, ws);
      assert history + WrittenBy(t, ws) == before + {Entry(last.key, EnsureAll(t, ws).value.rows[last.key])};
    }
  }

  // Acknowledging a current record, and forgetting it, write nothing.
  lemma MarkKeepsHistory<K(!new), P(!new)>(t: Table<K, P>, applied: map<K, Ack<P>>, history: set<Entry<K, P>>,
                                           key: K, row: Row<P>, instance: Id)
    requires HistoryOk(t, applied, history) && MarkApplied(t, applied, key, row, instance).Ok?
    ensures var applied' := MarkApplied(t, applied, key, row, instance).value;
            && HistoryOk(t, applied', history)
            && HistoryOk(t.(rows := t.rows - {key}), applied', history)
  {
    assert Entry(key, row) in history;
  }

  // So the revision alone decides whether an instance needs the current record again.
  lemma RevisionDecides<K(!new), P(!new)>(t: Table<K, P>, applied: map<K, Ack<P>>, history: set<Entry<K, P>>, key: K, instance: Id)
    requires HistoryOk(t, applied, history) && key in t.rows
    ensures NeedsApply(applied, key, t.rows[key], instance) <==>
            !(key in applied && applied[key].instance == instance && applied[key].row.revision == t.rows[key].revision)
  {
  }
}
