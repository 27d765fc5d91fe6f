/** The limiter object: tables of bucket objects updated in place, proved to take exactly
    the steps of `Limiter.Allow` and `Limiter.Sweep`. */
module RateLimiter {
  import opened TokenBucket
  import L = Limiter

  /** A map from keys to bucket objects. */
  class BucketTable<K(==)> {
    var buckets: map<K, Bucket<K>>

    /** The bucket states the objects stand for, and the objects. */
    ghost var model: map<K, BucketState>
    ghost var repr: set<object>

    /** Each object is in the slot it was made for, so no two slots share one. */
    ghost predicate Valid()
      reads this, repr
    {
      && this in repr
      && buckets.Keys == model.Keys
      && forall k :: k in buckets ==>
           && buckets[k] in repr && buckets[k] as object != this
           && buckets[k].slot == k && buckets[k].State() == model[k]
    }

    constructor ()
      ensures Valid() && model == map[] && repr == {this}
    {
      buckets, model := map[], map[];
      repr := {this};
    }

    /** Takes a token from the bucket of `k`, which is made full if it is missing. */
    method Take(k: K, cfg: Cfg, now: real) returns (ok: bool)
      requires Valid()
      modifies repr
      ensures Valid() && fresh(repr - old(repr)) && old(repr) <= repr
      ensures var (b, took) := TryTake(if k in old(model) then old(model)[k] else NewBucket(cfg, now), now);
              ok == took && model == old(model)[k := b]
    {
      var b;
      if k in buckets {
        b := buckets[k];
      } else {
        b := new Bucket(k, cfg, now);
        buckets := buckets[k := b];
        repr := repr + {b};
      }
      ok := b.TakeToken(now);
      model := model[k := b.State()];
    }

    /** Puts a token back into a bucket that is there. */
    method GiveBack(k: K, now: real)
      requires Valid() && k in model
      modifies repr
      ensures Valid() && repr == old(repr)
      ensures model == old(model)[k := Refund(old(model)[k], now)]
    {
      var b := buckets[k];
      b.GiveBack(now);
      model := model[k := b.State()];
    }

    /** Drops the idle buckets; the bucket objects are not touched. */
    method Sweep(now: real)
      requires Valid()
      modifies this
      ensures Valid() && repr == old(repr)
      ensures model == map k | k in old(model) && now - old(model)[k].lastTouched <= L.IDLE :: old(model)[k]
    {
      var todo := buckets.Keys;
      ghost var all := model;
      while todo != {}
        invariant Valid() && repr == old(repr) && todo <= all.Keys
        invariant model == map k | k in all && (k in todo || now - all[k].lastTouched <= L.IDLE) :: all[k]
      {
        var k :| k in todo;
        if now - buckets[k].lastTouched > L.IDLE {
          buckets := buckets - {k};
          model := model - {k};
        }
        todo := todo - {k};
      }
    }
  }

  class RateLimiter {
    const cfg: L.Config
    const globals: BucketTable<string>
    const tools: BucketTable<string>
    var lastSwept: real

    ghost function Repr(): set<object>
      reads this, globals, tools
    {
      {this} + globals.repr + tools.repr
    }

    ghost predicate Valid()
      reads this, globals, tools, globals.repr, tools.repr
    {
      && globals.Valid() && tools.Valid()
      && globals.repr !! tools.repr && this !in globals.repr && this !in tools.repr
    }

    ghost function View(): L.State
      reads this, globals, tools
    {
      L.State(globals.model, tools.model, lastSwept)
    }

    constructor (cfg: L.Config, now: real)
      ensures Valid() && fresh(Repr()) && this.cfg == cfg && View() == L.Init(now)
    {
      this.cfg := cfg;
      globals := new BucketTable();
      tools := new BucketTable();
      lastSwept := now;
    }

    /** `sweepLocked` as both of its callers use it, with the time of the sweep recorded. */
    method Sweep(now: real)
      requires Valid()
      modifies this, globals, tools
      ensures Valid() && Repr() == old(Repr()) && View() == L.Sweep(old(View()), now)
    {
      globals.Sweep(now);
      tools.Sweep(now);
      lastSwept := now;
    }

    /** The answer and the new state of the limiter are those of `Limiter.Allow`. */
    method Allow(caller: string, tool: string, now: real) returns (d: L.Decision)
      requires Valid()
      modifies Repr()
      ensures Valid() && fresh(Repr() - old(Repr())) && old(Repr()) <= Repr()
      ensures (View(), d) == L.Allow(cfg, old(View()), caller, tool, now)
    {
      if now - lastSwept > L.SWEEP_EVERY {
        Sweep(now);
      }
      d := Charge(caller, tool, now);
    }

    method Charge(caller: string, tool: string, now: real) returns (d: L.Decision)
      requires Valid()
      modifies Repr()
      ensures Valid() && fresh(Repr() - old(Repr())) && old(Repr()) <= Repr()
      ensures (View(), d) == L.Charge(cfg, old(View()), caller, tool, now)
    {
      var ok := globals.Take(caller, cfg.global, now);
      if !ok {
        return L.DeniedGlobal;
      }
      if tool in cfg.perTool {
        if cfg.perTool[tool].disabled {
          return L.Allowed;
        }
        ghost var g := globals.model;
        d := ChargeTool(caller, caller + ":" + tool, cfg.perTool[tool], now);
        assert g[caller := Refund(g[caller], now)] == old(globals.model)[caller := Refund(g[caller], now)];
        return;
      }
      return L.Allowed;
    }

    /** The per-tool half of a charge, giving the global token back if it fails. */
    method ChargeTool(caller: string, key: string, toolCfg: Cfg, now: real) returns (d: L.Decision)
      requires Valid() && caller in globals.model
      modifies globals.repr, tools.repr
      ensures Valid() && fresh(Repr() - old(Repr())) && old(Repr()) <= Repr() && lastSwept == old(lastSwept)
      ensures var (b, took) := TryTake(L.Find(old(tools.model), key, toolCfg, now), now);
              && tools.model == old(tools.model)[key := b]
              && (took ==> d == L.Allowed && globals.model == old(globals.model))
              && (!took ==> d == L.DeniedTool)
              && (!took ==> globals.model == old(globals.model)[caller := Refund(old(globals.model)[caller], now)])
    {
      var took := tools.Take(key, toolCfg, now);
      if took {
        return L.Allowed;
      }
      globals.GiveBack(caller, now);
      return L.DeniedTool;
    }
  }
}
