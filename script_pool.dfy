/** A pool of evaluated script engines (ScriptPool): engines are checked
    out, used by one thread and handed back. */
module Scripting {
  import opened Common

  /** One engine with the pool's script evaluated in it; the script's own
      JavaScript state is not part of this model. */
  class ScriptEngine {
    const scriptText: string

    constructor (scriptText: string)
      ensures this.scriptText == scriptText
    {
      this.scriptText := scriptText;
    }
  }

  class ScriptPool {
    const engineName: string
    const scriptText: string
    const scriptName: string
    /** Whether the engine evaluates scriptText without a ScriptException. */
    const evaluates: bool
    /** The idle engines, oldest first. */
    var pool: seq<ScriptEngine>

    constructor (engineName: string, scriptText: string, scriptName: string, evaluates: bool)
      ensures this.engineName == engineName && this.scriptText == scriptText
      ensures this.scriptName == scriptName && this.evaluates == evaluates
      ensures pool == []
    {
      this.engineName := engineName;
      this.scriptText := scriptText;
      this.scriptName := scriptName;
      this.evaluates := evaluates;
      pool := [];
    }

    /** A new engine with the script evaluated in it (createInstance). */
    method CreateInstance() returns (r: Result<ScriptEngine, Exception>)
      ensures r.Ok? <==> evaluates
      ensures r.Ok? ==> fresh(r.value) && r.value.scriptText == scriptText
      ensures r.Err? ==> r.error == ScriptFailure
    {
      if evaluates {
        var engine := new ScriptEngine(scriptText);
        r := Ok(engine);
      } else {
        r := Err(ScriptFailure);
      }
    }

    /** Primes the pool with one freshly evaluated engine. */
    method Initialize() returns (r: Result<(), Exception>)
      modifies this
      ensures r.Ok? <==> evaluates
      ensures r.Ok? ==> |pool| == |old(pool)| + 1 && pool[..|old(pool)|] == old(pool)
      ensures r.Ok? ==> fresh(pool[|old(pool)|]) && pool[|old(pool)|].scriptText == scriptText
      ensures r.Err? ==> r.error == ScriptFailure && pool == old(pool)
    {
      var created := CreateInstance();
      if created.Err? {
        return Err(created.error);
      }
      Recycle(created.value);
      r := Ok(());
    }

    /** Checks out the oldest idle engine, or evaluates a new one when none is idle. */
    method GetEngine() returns (r: Result<ScriptEngine, Exception>)
      modifies this
      ensures old(pool) != [] ==> r == Ok(old(pool)[0]) && pool == old(pool)[1..]
      ensures old(pool) == [] ==> pool == []
      ensures old(pool) == [] ==> (r.Ok? <==> evaluates)
      ensures old(pool) == [] && r.Ok? ==> fresh(r.value) && r.value.scriptText == scriptText
      ensures r.Err? ==> r.error == ScriptFailure
    {
      if pool != [] {
        var engine := pool[0];
        pool := pool[1..];
        return Ok(engine);
      }
      r := CreateInstance();
    }

    /** Returns an engine to the back of the idle list. */
    method Recycle(engine: ScriptEngine)
      modifies this
      ensures pool == old(pool) + [engine]
    {
      pool := pool + [engine];
    }
  }

  /** The recycling test of ScriptPoolTest: after initialize, two check-outs
      give two different engines, and an engine handed back to the empty
      pool is the one the next check-out returns. */
  method RecycleScenario() returns (engine1: ScriptEngine, engine2: ScriptEngine, engine3: ScriptEngine)
    ensures engine1 != engine2 && engine3 == engine2
  {
    var p := new ScriptPool("JavaScript", "function test() { return someGlobal; }", "test", true);
    var init := p.Initialize();
    var r1 := p.GetEngine();
    var r2 := p.GetEngine();
    engine1, engine2 := r1.value, r2.value;
    p.Recycle(engine2);
    var r3 := p.GetEngine();
    engine3 := r3.value;
  }
}
