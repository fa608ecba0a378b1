/**
 * The spawn history of the runner and what is derived from it: one record
 * per spawned FXServer with its start, kill, exit and close timestamps,
 * and the status label (`getStatus`) and uptime (`getUptime`) computed from
 * the records.
 *
 * Timestamps are whole seconds. The source stores `false` for a timestamp
 * not yet taken and tests fields by truthiness; here 0 plays that part, so
 * a field is set exactly when it is non-zero (and `now - false` is `now`,
 * as `now - 0` is).
 */
module Ledger {
  import opened Wrappers
  import opened Text

  /** The keys of a record's `timestamps` object, in their insertion order. */
  datatype Field = Start | Kill | Exit | Close

  const Keys: seq<Field> := [Start, Kill, Exit, Close]

  function FieldName(k: Field): string {
    match k
    case Start => "start"
    case Kill => "kill"
    case Exit => "exit"
    case Close => "close"
  }

  datatype Timestamps = Timestamps(start: nat, kill: nat, exit: nat, close: nat) {
    function Get(k: Field): nat {
      match k
      case Start => start
      case Kill => kill
      case Exit => exit
      case Close => close
    }

    function Set(k: Field, t: nat): (r: Timestamps)
      ensures r.Get(k) == t
      ensures forall k' :: k' != k ==> r.Get(k') == Get(k')
    {
      match k
      case Start => this.(start := t)
      case Kill => this.(kill := t)
      case Exit => this.(exit := t)
      case Close => this.(close := t)
    }
  }

  datatype Record = Record(pid: string, timestamps: Timestamps)

  type History = seq<Record>

  /** The record `spawnServer` pushes: started now, nothing else yet. */
  function NewRecord(pid: string, now: nat): (r: Record)
    ensures r.pid == pid && r.timestamps.Get(Start) == now
    ensures forall k :: k != Start ==> r.timestamps.Get(k) == 0
  {
    Record(pid, Timestamps(now, 0, 0, 0))
  }

  /**
   * `history[i].timestamps[k] = now`: the event handlers and `killServer`
   * write one field of one record and nothing else.
   */
  function Stamp(h: History, i: nat, k: Field, now: nat): (r: History)
    requires i < |h|
    ensures |r| == |h|
    ensures forall j :: 0 <= j < |h| && j != i ==> r[j] == h[j]
    ensures r[i].pid == h[i].pid
    ensures r[i].timestamps.Get(k) == now
    ensures forall k' :: k' != k ==> r[i].timestamps.Get(k') == h[i].timestamps.Get(k')
  {
    h[i := h[i].(timestamps := h[i].timestamps.Set(k, now))]
  }

  /** The labels `getStatus` returns, with the pending-field lists as sequences. */
  datatype Status =
    | NotStarted
    | SpawnReady
    | SpawnAwaiting(pending: seq<Field>)
    | KillPending(pending: seq<Field>)
    | Killed
    | Closing
    | Closed
    | Spawned

  function FieldNames(ks: seq<Field>): (r: seq<string>)
    ensures |r| == |ks|
    ensures forall i :: 0 <= i < |ks| ==> r[i] == FieldName(ks[i])
  {
    seq(|ks|, i requires 0 <= i < |ks| => FieldName(ks[i]))
  }

  /** The status string the source builds. */
  function StatusText(s: Status): (r: string)
    ensures s.SpawnAwaiting? ==> "spawn awaiting last: " <= r
    ensures s.KillPending? ==> "kill pending: " <= r
  {
    match s
    case NotStarted => "not started"
    case SpawnReady => "spawn ready"
    case SpawnAwaiting(p) => "spawn awaiting last: " + Join(FieldNames(p), ", ")
    case KillPending(p) => "kill pending: " + Join(FieldNames(p), ", ")
    case Killed => "killed"
    case Closing => "closing"
    case Closed => "closed"
    case Spawned => "spawned"
  }

  /** `keys.filter((k) => !t[k])`: the keys whose timestamp is unset, in key order. */
  function Unset(keys: seq<Field>, t: Timestamps): (r: seq<Field>)
    ensures |r| <= |keys|
  {
    UnsetFrom(keys, t, 0)
  }

  /** The filter over `keys[i..]`. */
  function UnsetFrom(keys: seq<Field>, t: Timestamps, i: nat): (r: seq<Field>)
    requires i <= |keys|
    ensures |r| <= |keys| - i
    decreases |keys| - i
  {
    if i == |keys| then []
    else (if t.Get(keys[i]) == 0 then [keys[i]] else []) + UnsetFrom(keys, t, i + 1)
  }

  lemma {:induction false} UnsetFromMembers(keys: seq<Field>, t: Timestamps, i: nat, k: Field)
    requires i <= |keys|
    ensures k in UnsetFrom(keys, t, i) <==> k in keys[i..] && t.Get(k) == 0
    decreases |keys| - i
  {
    if i < |keys| {
      UnsetFromMembers(keys, t, i + 1, k);
      assert keys[i..] == [keys[i]] + keys[i + 1..];
    }
  }

  /** A key is pending exactly when it is one of the keys and its timestamp is unset. */
  lemma UnsetMembers(keys: seq<Field>, t: Timestamps, k: Field)
    ensures k in Unset(keys, t) <==> k in keys && t.Get(k) == 0
  {
    UnsetFromMembers(keys, t, 0, k);
    assert keys[0..] == keys;
  }

  /** The unset fields of `t` in key order, written out. */
  lemma UnsetKeys(t: Timestamps)
    ensures Unset(Keys, t)
            == (if t.start == 0 then [Start] else []) + (if t.kill == 0 then [Kill] else [])
               + (if t.exit == 0 then [Exit] else []) + (if t.close == 0 then [Close] else [])
  {
    var a, b, c, d := (if t.start == 0 then [Start] else []), (if t.kill == 0 then [Kill] else []),
                      (if t.exit == 0 then [Exit] else []), (if t.close == 0 then [Close] else []);
    assert UnsetFrom(Keys, t, 3) == d + UnsetFrom(Keys, t, 4);
    assert UnsetFrom(Keys, t, 2) == c + UnsetFrom(Keys, t, 3);
    assert UnsetFrom(Keys, t, 1) == b + UnsetFrom(Keys, t, 2);
    assert UnsetFrom(Keys, t, 0) == a + UnsetFrom(Keys, t, 1);
    assert a + (b + (c + (d + []))) == a + b + c + d;
  }

  /** The message of the error `getStatus` throws for a lone record without a start. */
  const LoneRecordError: string := "This should NOT happen. Let's see how long people will take to find this..."

  /**
   * `getStatus`. The branches, in the source's order: no records; a last
   * record without a start (an error when it is the only record, else
   * the fields still pending, where the filter runs over the previous
   * record's keys but tests the LAST record's fields); a kill stamp (kill
   * pending with the unset fields, or killed); exit without close; exit and
   * close; anything else is spawned.
   */
  function GetStatus(h: History): (r: Result<Status, string>)
    ensures h == [] ==> r == Ok(NotStarted)
    ensures r.Err? <==> |h| == 1 && h[0].timestamps.start == 0
    ensures |h| > 1 && h[|h| - 1].timestamps.start == 0 ==>
              r == Ok(SpawnAwaiting(Unset(Keys, h[|h| - 1].timestamps)))
    ensures h != [] && h[|h| - 1].timestamps.start != 0 ==>
              var t := h[|h| - 1].timestamps;
              r == Ok(
                if t.kill != 0 then
                  (if t.exit != 0 && t.close != 0 then Killed
                   else KillPending((if t.exit == 0 then [Exit] else []) + (if t.close == 0 then [Close] else [])))
                else if t.exit != 0 then (if t.close == 0 then Closing else Closed)
                else Spawned)
  {
    if |h| == 0 then Ok(NotStarted)
    else
      var curr := h[|h| - 1].timestamps;
      if curr.start == 0 && |h| == 1 then Err(LoneRecordError)
      else if curr.start == 0 then
        var pending := Unset(Keys, curr);
        if |pending| == 0 then Ok(SpawnReady) else Ok(SpawnAwaiting(pending))
      else if curr.kill != 0 then
        var pending := Unset(Keys, curr);
        UnsetKeys(curr);
        assert pending == (if curr.exit == 0 then [Exit] else []) + (if curr.close == 0 then [Close] else []);
        if |pending| > 0 then Ok(KillPending(pending)) else Ok(Killed)
      else if curr.exit != 0 && curr.close == 0 then Ok(Closing)
      else if curr.exit != 0 && curr.close != 0 then Ok(Closed)
      else Ok(Spawned)
  }

  /** `getUptime`: seconds since the last record's start, 0 with no records. */
  function GetUptime(h: History, now: nat): (r: int)
    ensures h == [] ==> r == 0
    ensures h != [] ==> r == now - h[|h| - 1].timestamps.start
  {
    if |h| == 0 then 0 else now - h[|h| - 1].timestamps.start
  }

  /**
   * "spawn ready" is never returned: in that branch the last record's
   * start is unset, so `start` is always among the pending keys.
   */
  lemma SpawnReadyUnreachable(h: History)
    ensures GetStatus(h) != Ok(SpawnReady)
  {
  }

  /** In the no-start branch the pending list always begins with `start`. */
  lemma SpawnAwaitingListsStart(h: History)
    requires GetStatus(h).Ok? && GetStatus(h).value.SpawnAwaiting?
    ensures |GetStatus(h).value.pending| > 0 && GetStatus(h).value.pending[0] == Start
  {
  }

  /** When every record has a start, the status is one of the five post-spawn labels. */
  lemma StartedHistoryStatus(h: History)
    requires h != [] && forall i :: 0 <= i < |h| ==> h[i].timestamps.start != 0
    ensures GetStatus(h).Ok?
    ensures GetStatus(h).value in {Killed, Closing, Closed, Spawned} || GetStatus(h).value.KillPending?
  {
    assert h[|h| - 1].timestamps.start != 0;
  }

  /** The status and uptime depend on the last record only. */
  lemma StatusOfLast(h: History, h': History, now: nat)
    requires |h| > 1 && |h'| > 1 && h[|h| - 1] == h'[|h'| - 1]
    ensures GetStatus(h) == GetStatus(h') && GetUptime(h, now) == GetUptime(h', now)
  {
  }

  /** After a successful spawn at a non-zero time the status is "spawned" and the uptime counts from now. */
  lemma SpawnedAfterAppend(h: History, pid: string, now: nat, later: nat)
    requires now != 0
    ensures GetStatus(h + [NewRecord(pid, now)]) == Ok(Spawned)
    ensures GetUptime(h + [NewRecord(pid, now)], later) == later - now
  {
  }

  /**
   * A kill stamped on a running record reports the exit and the close as
   * pending, in that order, and "killed" once both have arrived, in
   * either order.
   */
  lemma KillLifecycle(h: History, tKill: nat, tExit: nat, tClose: nat)
    requires h != [] && h[|h| - 1].timestamps == Timestamps(h[|h| - 1].timestamps.start, 0, 0, 0)
    requires h[|h| - 1].timestamps.start != 0 && tKill != 0 && tExit != 0 && tClose != 0
    ensures var i := |h| - 1;
            var k := Stamp(h, i, Kill, tKill);
            && GetStatus(k) == Ok(KillPending([Exit, Close]))
            && GetStatus(Stamp(k, i, Exit, tExit)) == Ok(KillPending([Close]))
            && GetStatus(Stamp(k, i, Close, tClose)) == Ok(KillPending([Exit]))
            && GetStatus(Stamp(Stamp(k, i, Exit, tExit), i, Close, tClose)) == Ok(Killed)
            && GetStatus(Stamp(Stamp(k, i, Close, tClose), i, Exit, tExit)) == Ok(Killed)
  {
    var i := |h| - 1;
    var s := h[i].timestamps.start;
    var k := Stamp(h, i, Kill, tKill);
    assert k[i].timestamps == Timestamps(s, tKill, 0, 0);
    assert [Exit] + [Close] == [Exit, Close] && [Exit] + [] == [Exit] && [] + [Close] == [Close];
    assert Stamp(k, i, Exit, tExit)[i].timestamps == Timestamps(s, tKill, tExit, 0);
    assert Stamp(k, i, Close, tClose)[i].timestamps == Timestamps(s, tKill, 0, tClose);
    assert Stamp(Stamp(k, i, Exit, tExit), i, Close, tClose)[i].timestamps == Timestamps(s, tKill, tExit, tClose);
    assert Stamp(Stamp(k, i, Close, tClose), i, Exit, tExit)[i].timestamps == Timestamps(s, tKill, tExit, tClose);
  }

  /** Without a kill, exit then close is "closing" then "closed"; a close alone stays "spawned". */
  lemma ExitCloseLifecycle(h: History, tExit: nat, tClose: nat)
    requires h != [] && h[|h| - 1].timestamps == Timestamps(h[|h| - 1].timestamps.start, 0, 0, 0)
    requires h[|h| - 1].timestamps.start != 0 && tExit != 0 && tClose != 0
    ensures var i := |h| - 1;
            && GetStatus(Stamp(h, i, Exit, tExit)) == Ok(Closing)
            && GetStatus(Stamp(Stamp(h, i, Exit, tExit), i, Close, tClose)) == Ok(Closed)
            && GetStatus(Stamp(h, i, Close, tClose)) == Ok(Spawned)
  {
    var i := |h| - 1;
    var s := h[i].timestamps.start;
    assert Stamp(h, i, Exit, tExit)[i].timestamps == Timestamps(s, 0, tExit, 0);
    assert Stamp(Stamp(h, i, Exit, tExit), i, Close, tClose)[i].timestamps == Timestamps(s, 0, tExit, tClose);
    assert Stamp(h, i, Close, tClose)[i].timestamps == Timestamps(s, 0, 0, tClose);
  }

  /**
   * Events of an earlier instance, arriving after a newer spawn, write
   * into their own record and change neither the status nor the uptime.
   */
  lemma StaleEventInvisible(h: History, i: nat, k: Field, t: nat, now: nat)
    requires i + 1 < |h|
    ensures GetStatus(Stamp(h, i, k, t)) == GetStatus(h)
    ensures GetUptime(Stamp(h, i, k, t), now) == GetUptime(h, now)
  {
    assert Stamp(h, i, k, t)[|h| - 1] == h[|h| - 1];
  }

  /** Stamps of different fields or different records commute: delivery order does not matter. */
  lemma StampsCommute(h: History, i: nat, k: Field, t: nat, j: nat, k': Field, t': nat)
    requires i < |h| && j < |h| && (i != j || k != k')
    ensures Stamp(Stamp(h, i, k, t), j, k', t') == Stamp(Stamp(h, j, k', t'), i, k, t)
  {
    var a := Stamp(Stamp(h, i, k, t), j, k', t');
    var b := Stamp(Stamp(h, j, k', t'), i, k, t);
    forall m | 0 <= m < |h| ensures a[m] == b[m] {
      if m == i || m == j {
        var ta := a[m].timestamps;
        var tb := b[m].timestamps;
        assert ta.Get(Start) == tb.Get(Start) && ta.Get(Kill) == tb.Get(Kill);
        assert ta.Get(Exit) == tb.Get(Exit) && ta.Get(Close) == tb.Get(Close);
      }
    }
  }

  /** A repeated event overwrites its own earlier stamp: the last delivery wins. */
  lemma StampOverwrites(h: History, i: nat, k: Field, t: nat, t': nat)
    requires i < |h|
    ensures Stamp(Stamp(h, i, k, t), i, k, t') == Stamp(h, i, k, t')
  {
    var a := Stamp(Stamp(h, i, k, t), i, k, t');
    var b := Stamp(h, i, k, t');
    var ta := a[i].timestamps;
    var tb := b[i].timestamps;
    assert ta.Get(Start) == tb.Get(Start) && ta.Get(Kill) == tb.Get(Kill);
    assert ta.Get(Exit) == tb.Get(Exit) && ta.Get(Close) == tb.Get(Close);
  }

  /** The text right after a kill, before any termination event. */
  lemma KillPendingText()
    ensures StatusText(KillPending([Exit, Close])) == "kill pending: exit, close"
  {
    assert FieldNames([Exit, Close]) == ["exit", "close"];
  }

  /**
   * The text "spawn ready", one of the states `getStatus` documents, is
   * never shown: no status reads as it, and the status is never the
   * "spawn ready" one.
   */
  lemma SpawnReadyTextNeverShown(h: History)
    requires GetStatus(h).Ok?
    ensures StatusText(GetStatus(h).value) != "spawn ready"
  {
    var st := GetStatus(h).value;
    SpawnReadyUnreachable(h);
    var r := StatusText(st);
    if st.SpawnAwaiting? {
      assert r[6] == 'a';
    } else if st.KillPending? {
      assert r[0] == 'k';
    }
  }
}
