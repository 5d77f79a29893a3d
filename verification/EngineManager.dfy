// The manager object of tts/engine_manager.py and stt/engine_manager.py.
// Every method below that touches the fields is one section executed under
// the manager's lock; EngineThreads.dfy interleaves those sections.
module EngineManagement {
  import opened Common
  import opened EngineCache

  datatype LoadError = NotFound(name: Name) | LoadFailed(name: Name)

  class EngineManager {
    const maxLoaded: int
    const defaultName: Name
    var keys: seq<Name>
    var engines: map<Name, Engine>
    var refs: map<Name, nat>

    ghost function View(): Cache
      reads this
    {
      Cache(keys, engines, refs)
    }

    ghost predicate Valid()
      reads this
    {
      Consistent(View())
    }

    constructor (maxLoaded: int, defaultName: Name)
      ensures Valid() && View() == EMPTY_CACHE
      ensures this.maxLoaded == maxLoaded && this.defaultName == defaultName
    {
      this.maxLoaded := maxLoaded;
      this.defaultName := defaultName;
      keys, engines, refs := [], map[], map[];
    }

    method EvictIfOverCapacity(protect: Option<Name>)
      requires Valid()
      modifies this`keys, this`engines
      ensures Valid()
      ensures View() == Sweep(old(View()), maxLoaded, protect)
    {
      SweepConsistent(View(), maxLoaded, protect);
      assert Restrict(engines, keys) == engines;
      if |keys| <= maxLoaded {
        return;
      }
      DeleteOldest(protect, Protected(refs, protect));
    }

    /** The deleting loop over a snapshot of the keys. */
    method DeleteOldest(protect: Option<Name>, ghost kept: set<Name>)
      requires NoDup(keys) && engines == Restrict(engines, keys)
      requires kept == Protected(refs, protect)
      modifies this`keys, this`engines
      ensures keys == DropOldest(old(keys), kept, |old(keys)| - maxLoaded)
      ensures engines == Restrict(old(engines), keys)
    {
      var snapshot := keys;
      ghost var survivors: seq<Name> := [];
      SweepFromMeaning([], snapshot, kept, |snapshot| - maxLoaded);
      for i := 0 to |snapshot|
        invariant keys == survivors + snapshot[i..] && NoDup(keys)
        invariant engines == Restrict(old(engines), keys)
        invariant SweepFrom([], snapshot, kept, |snapshot| - maxLoaded)
               == SweepFrom(survivors, snapshot[i..], kept, |keys| - maxLoaded)
      {
        if |keys| <= maxLoaded {
          return;
        }
        assert snapshot[i..] == [snapshot[i]] + snapshot[i + 1..];
        survivors := SkipOrDelete(snapshot[i], protect, kept, old(engines), survivors, snapshot[i + 1..]);
      }
    }

    /** One turn of the deleting loop. */
    method SkipOrDelete(name: Name, protect: Option<Name>, ghost kept: set<Name>, ghost before: map<Name, Engine>,
                        ghost survivors: seq<Name>, ghost tail: seq<Name>)
      returns (ghost passed: seq<Name>)
      requires kept == Protected(refs, protect) && |keys| > maxLoaded
      requires keys == survivors + ([name] + tail) && NoDup(keys)
      requires engines == Restrict(before, keys)
      modifies this`keys, this`engines
      ensures passed == if name in kept then survivors + [name] else survivors
      ensures keys == passed + tail && NoDup(keys)
      ensures engines == Restrict(before, keys)
      ensures SweepFrom(survivors, [name] + tail, kept, old(|keys|) - maxLoaded)
           == SweepFrom(passed, tail, kept, |keys| - maxLoaded)
    {
      assert ([name] + tail)[1..] == tail;
      if Some(name) == protect || (name in refs && refs[name] > 0) {
        passed := survivors + [name];
      } else {
        passed := survivors;
        RemoveMiddle(before, survivors, name, tail);
        keys := Without(keys, name);
        engines := engines - {name};
      }
    }

    /** First locked section of _get_or_load. */
    method Lookup(name: Name) returns (hit: Option<Engine>)
      requires Valid()
      modifies this`keys
      ensures Valid()
      ensures hit == if name in old(engines) then Some(old(engines)[name]) else None
      ensures View() == if hit.Some? then Touch(old(View()), name) else old(View())
    {
      if name in engines {
        TouchConsistent(View(), name);
        keys := Without(keys, name) + [name];
        return Some(engines[name]);
      }
      return None;
    }

    /** Second locked section of _get_or_load, after an unlocked load. */
    method InsertLoaded(name: Name, loaded: Engine) returns (engine: Engine)
      requires Valid() && loaded.name == name
      modifies this`keys, this`engines
      ensures Valid()
      ensures View() == Insert(old(View()), maxLoaded, name, loaded)
      ensures engine == if name in old(engines) then old(engines)[name] else loaded
    {
      InsertConsistent(View(), maxLoaded, name, loaded);
      LandedConsistent(View(), name, loaded);
      WithoutAppend(keys, [name], name);
      if name !in engines {
        engines := engines[name := loaded];
        keys := keys + [name];
      }
      keys := Without(keys, name) + [name];
      assert View() == Landed(old(View()), name, loaded);
      EvictIfOverCapacity(Some(name));
      engine := engines[name];
    }

    /** One whole _get_or_load call with no other thread in between; `load`
        is what resolving and constructing the engine comes to.  A missing or
        empty name means the default. */
    method GetOrLoad(requested: Name, load: Result<Engine, LoadError>) returns (r: Result<Engine, LoadError>)
      requires Valid()
      requires load.Ok? ==> load.value.name == if requested.text != "" then requested else defaultName
      modifies this`keys, this`engines
      ensures Valid()
      ensures r.Ok? ==> r.value.name == if requested.text != "" then requested else defaultName
      ensures r.Ok? ==> keys != [] && keys[|keys| - 1] == r.value.name && r.value.name in engines
      ensures r.Ok? ==> engines[r.value.name] == r.value
      ensures var name := if requested.text != "" then requested else defaultName;
              if !IsPlainName(name) then r == Err(NotFound(name)) && View() == old(View())
              else if name in old(engines) then
                r == Ok(old(engines)[name]) && View() == Touch(old(View()), name)
              else if load.Err? then r == Err(load.error) && View() == old(View())
              else r == Ok(load.value) && View() == Insert(old(View()), maxLoaded, name, load.value)
    {
      var name := Effective(requested);
      if !IsPlainName(name) {
        return Err(NotFound(name));
      }
      var hit := Lookup(name);
      if hit.Some? {
        return Ok(hit.value);
      }
      if load.Err? {
        return Err(load.error);
      }
      InsertConsistent(View(), maxLoaded, name, load.value);
      var engine := InsertLoaded(name, load.value);
      return Ok(engine);
    }

    function Effective(requested: Name): Name {
      if requested.text == "" then defaultName else requested
    }

    method AddReference(name: Name)
      requires Valid()
      modifies this`refs
      ensures Valid() && View() == Pin(old(View()), name)
    {
      refs := refs[name := (if name in refs then refs[name] else 0) + 1];
    }

    method DropReference(name: Name)
      requires Valid() && name in refs
      modifies this
      ensures Valid() && View() == Release(old(View()), maxLoaded, name)
    {
      refs := refs[name := refs[name] - 1];
      if refs[name] <= 0 {
        refs := refs - {name};
        assert refs == old(refs) - {name};
      }
      EvictIfOverCapacity(None);
    }

    /** Only the text-to-speech manager has this operation. */
    method UnloadNamed(name: Name)
      requires Valid()
      modifies this`keys, this`engines
      ensures Valid() && View() == Unload(old(View()), name)
    {
      UnloadConsistent(View(), name);
      WithoutAbsentWhenNotLoaded(View(), name);
      if name in refs && refs[name] > 0 {
        return;
      }
      keys := Without(keys, name);
      engines := engines - {name};
    }

    static lemma WithoutAbsentWhenNotLoaded(c: Cache, n: Name)
      requires Consistent(c)
      ensures n !in c.engines ==> Without(c.keys, n) == c.keys
    {
      if n !in c.engines {
        assert n !in Elems(c.keys);
        WithoutAbsent(c.keys, n);
      }
    }
  }
}
