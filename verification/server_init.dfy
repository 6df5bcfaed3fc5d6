/** The shop API's one-time initialisation guard (`inited` and `init`). The two
    connect calls are I/O; whether each settles or rejects is a parameter. */
module ServerInit {

  /** A connect call that `init` started. */
  datatype Step = ConnectDB | ConnectCloudinary

  /** How the two awaited connect calls would settle on this call: `true` when
      the promise resolves, `false` when it rejects. */
  datatype Connects = Connects(dbOk: bool, cloudinaryOk: bool)

  /** One call of `init`: the flag afterwards, the connect calls it started, and
      whether the returned promise rejected. */
  datatype InitRun = InitRun(inited: bool, steps: seq<Step>, rejected: bool)

  /** `init`: returns at once when already initialised; otherwise awaits the
      database, then the media store, and only then sets the flag. A rejection
      propagates and leaves the flag false. */
  function Init(inited: bool, env: Connects): (r: InitRun)
    ensures inited ==> r.inited && r.steps == [] && !r.rejected
    ensures r.inited <==> inited || (env.dbOk && env.cloudinaryOk)
    ensures r.rejected <==> !r.inited
    ensures !inited ==> |r.steps| > 0 && r.steps[0] == ConnectDB
    ensures ConnectCloudinary in r.steps ==> env.dbOk
    ensures !inited && r.inited ==> r.steps == [ConnectDB, ConnectCloudinary]
    ensures !inited ==> r.steps == [ConnectDB] + (if env.dbOk then [ConnectCloudinary] else [])
  {
    if inited then InitRun(true, [], false)
    else if !env.dbOk then InitRun(false, [ConnectDB], true)
    else if !env.cloudinaryOk then InitRun(false, [ConnectDB, ConnectCloudinary], true)
    else InitRun(true, [ConnectDB, ConnectCloudinary], false)
  }

  /** The flag and every connect call started, over a series of `init` calls. */
  datatype History = History(inited: bool, steps: seq<Step>)

  function InitAll(inited: bool, envs: seq<Connects>): History
    decreases |envs|
  {
    if |envs| == 0 then History(inited, [])
    else
      var r := Init(inited, envs[0]);
      var rest := InitAll(r.inited, envs[1..]);
      History(rest.inited, r.steps + rest.steps)
  }

  /** Once the flag is set, any number of later calls start nothing and keep it set. */
  lemma {:induction false} InitAllAfterInited(envs: seq<Connects>)
    ensures InitAll(true, envs) == History(true, [])
    decreases |envs|
  {
    if |envs| > 0 {
      InitAllAfterInited(envs[1..]);
    }
  }

  /** The flag ends up set exactly when it already was, or some call saw both
      connect calls resolve. */
  lemma {:induction false} InitAllSetsFlag(inited: bool, envs: seq<Connects>)
    ensures InitAll(inited, envs).inited <==>
      inited || exists i :: 0 <= i < |envs| && envs[i].dbOk && envs[i].cloudinaryOk
    decreases |envs|
  {
    if |envs| > 0 {
      var r := Init(inited, envs[0]);
      InitAllSetsFlag(r.inited, envs[1..]);
      if exists i :: 0 <= i < |envs| && envs[i].dbOk && envs[i].cloudinaryOk {
        var i :| 0 <= i < |envs| && envs[i].dbOk && envs[i].cloudinaryOk;
        if i > 0 {
          assert envs[1..][i - 1] == envs[i];
        }
      }
      if exists i :: 0 <= i < |envs[1..]| && envs[1..][i].dbOk && envs[1..][i].cloudinaryOk {
        var i :| 0 <= i < |envs[1..]| && envs[1..][i].dbOk && envs[1..][i].cloudinaryOk;
        assert envs[i + 1] == envs[1..][i];
      }
    }
  }

  /** Starting uninitialised, a run whose first call succeeds connects each
      service exactly once, however many calls follow. */
  lemma ConnectsOnce(env: Connects, later: seq<Connects>)
    requires env.dbOk && env.cloudinaryOk
    ensures InitAll(false, [env] + later) == History(true, [ConnectDB, ConnectCloudinary])
  {
    var envs := [env] + later;
    assert envs[1..] == later;
    InitAllAfterInited(later);
  }
}
