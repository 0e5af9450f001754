/** Lists inside an activity: what the recursive updates do at one place. */
module ActivityLists {
  import opened Wrappers
  import opened Activities

  /** Completion ends the latest running command and touches no other. */
  lemma {:induction false} EndLastIs(
    cs: seq<Command>, j: nat, exitCode: int, duration: Option<real>, preview: Option<string>)
    requires j < |cs| && cs[j].running && forall k :: j < k < |cs| ==> !cs[k].running
    ensures EndLast(cs, exitCode, duration, preview)
         == cs[j := cs[j].(running := false, exitCode := Some(exitCode), duration := duration,
                           preview := GetOr(preview, cs[j].preview))]
    decreases |cs|
  {
    var n := |cs| - 1;
    if j < n {
      EndLastIs(cs[..n], j, exitCode, duration, preview);
      assert cs == cs[..n] + [cs[n]];
    }
  }

  /** If no command is running, completion changes nothing. */
  lemma {:induction false} EndLastOfNone(cs: seq<Command>, exitCode: int, duration: Option<real>,
                                         preview: Option<string>)
    requires forall k :: 0 <= k < |cs| ==> !cs[k].running
    ensures EndLast(cs, exitCode, duration, preview) == cs
    decreases |cs|
  {
    if cs != [] {
      EndLastOfNone(cs[..|cs| - 1], exitCode, duration, preview);
    }
  }

  lemma {:induction false} SetWorkerAt(ws: seq<Worker>, i: nat, id: string, f: Worker -> Worker)
    requires i < |ws| && ws[i].id == id && forall k :: 0 <= k < i ==> ws[k].id != id
    ensures SetWorker(ws, id, f) == ws[i := f(ws[i])]
    decreases |ws|
  {
    if i > 0 {
      SetWorkerAt(ws[1..], i - 1, id, f);
    }
  }

  lemma {:induction false} SetWorkerNowhere(ws: seq<Worker>, id: string, f: Worker -> Worker)
    requires forall k :: 0 <= k < |ws| ==> ws[k].id != id
    ensures SetWorker(ws, id, f) == ws
    decreases |ws|
  {
    if ws != [] {
      SetWorkerNowhere(ws[1..], id, f);
    }
  }

  lemma {:induction false} FinishAllAt(ws: seq<Worker>, r: seq<Worker>, now: string)
    requires |r| == |ws| && forall k :: 0 <= k < |ws| ==> r[k] == Finish(ws[k], now)
    ensures FinishAll(ws, now) == r
    decreases |ws|
  {
    if ws != [] {
      FinishAllAt(ws[1..], r[1..], now);
    }
  }

  lemma {:induction false} SetFileAt(fs: seq<FileChange>, i: nat, change: FileChange)
    requires i < |fs| && fs[i].path == change.path && forall k :: 0 <= k < i ==> fs[k].path != change.path
    ensures SetFile(fs, change) == fs[i := change]
    decreases |fs|
  {
    if i > 0 {
      SetFileAt(fs[1..], i - 1, change);
    }
  }

  lemma {:induction false} FirstWorker(ws: seq<Worker>, id: string) returns (i: int)
    requires HasWorker(ws, id)
    ensures 0 <= i < |ws| && ws[i].id == id && forall k :: 0 <= k < i ==> ws[k].id != id
    decreases |ws|
  {
    if ws[0].id == id {
      i := 0;
    } else {
      assert HasWorker(ws[1..], id) by {
        var k :| 0 <= k < |ws| && ws[k].id == id;
        assert ws[1..][k - 1].id == id;
      }
      var j := FirstWorker(ws[1..], id);
      i := j + 1;
      forall k | 0 <= k < i ensures ws[k].id != id {
        if k > 0 {
          assert ws[1..][k - 1].id != id;
        }
      }
    }
  }

  lemma {:induction false} FirstChange(fs: seq<FileChange>, path: string) returns (i: int)
    requires HasPath(fs, path)
    ensures 0 <= i < |fs| && fs[i].path == path && forall k :: 0 <= k < i ==> fs[k].path != path
    decreases |fs|
  {
    if fs[0].path == path {
      i := 0;
    } else {
      assert HasPath(fs[1..], path) by {
        var k :| 0 <= k < |fs| && fs[k].path == path;
        assert fs[1..][k - 1].path == path;
      }
      var j := FirstChange(fs[1..], path);
      i := j + 1;
      forall k | 0 <= k < i ensures fs[k].path != path {
        if k > 0 {
          assert fs[1..][k - 1].path != path;
        }
      }
    }
  }

  lemma {:induction false} NoneRunning(cs: seq<Command>)
    requires forall j :: 0 <= j < |cs| && cs[j].running ==> exists k :: j < k < |cs| && cs[k].running
    ensures forall k :: 0 <= k < |cs| ==> !cs[k].running
  {
    var j := |cs| - 1;
    while j >= 0
      invariant -1 <= j < |cs|
      invariant forall k :: j < k < |cs| ==> !cs[k].running
    {
      j := j - 1;
    }
  }
}
