/**
 * The registry store as the object its callers hold (src/store.rs, `Store`), with
 * writes done inline as they are outside an async runtime. Each method is one call
 * run to its end; how calls interleave is the subject of module Store, whose
 * mutations these methods perform.
 */
module InlineStore {
  import opened Text
  import opened RegistryText
  import opened Store

  class RegistryStore {
    var entries: Registry
    var generation: nat
    var dirty: bool
    var cache: Option<set<string>>
    var written: nat
    var file: string

    ghost predicate Valid()
      reads this
    {
      && (cache.Some? ==> cache.value == Ids(entries))
      && written <= generation
    }

    /** The file gives the map back, whenever it is loaded. What is written does so exactly
        if the map is well formed: schema names are validated upstream. */
    ghost predicate Saved()
      reads this
    {
      Denotes(file, entries)
    }

    /** Loads whatever the file holds. */
    constructor (contents: string, now: nat)
      ensures Valid() && file == contents && entries == Parse(contents, now) && (now < U64 ==> WellFormed(entries))
      ensures !dirty && cache.None? && generation == written == 0
    {
      entries, generation, dirty, cache, written, file := Parse(contents, now), 0, false, None, 0, contents;
      if now < U64 {
        ParseIsClean(contents, now);
      }
    }

    /** The snapshot of the map, with the next generation. */
    method Stamp() returns (stamp: nat, contents: string)
      requires Valid()
      modifies this`generation
      ensures Valid() && stamp == generation == old(generation) + 1
      ensures Denotes(contents, entries) <==> WellFormed(entries)
    {
      ghost var order;
      contents, order := Serialize(entries);
      DenotesExactly(entries, order);
      generation := generation + 1;
      stamp := generation;
    }

    /** Writes `contents` unless a newer generation is on disk; `ok` is whether the
        disk takes the write. */
    method WriteLatest(stamp: nat, contents: string, ok: bool)
      requires Valid() && stamp <= generation
      modifies this`written, this`file
      ensures Valid()
      ensures written == (if ok then Max(old(written), stamp) else old(written))
      ensures file == if stamp > old(written) && ok then contents else old(file)
    {
      if stamp <= written {
        return;
      }
      if ok {
        file := contents;
        written := stamp;
      }
    }

    method Put(schema: string, id: string, now: nat, ok: bool)
      requires Valid()
      modifies this
      ensures Valid()
      ensures WellFormed(old(entries)) && Clean(schema) && Clean(id) && now < U64 ==> WellFormed(entries)
      ensures
        var bound := AlreadyBound(old(entries), schema, id);
        && entries == Mutate(old(entries), if bound then Bump(schema, now) else Bind(schema, Rec(id, now, Live)))
        && dirty == (old(dirty) || bound)
        && (!bound && ok ==> (Saved() <==> WellFormed(entries)) && written == generation > old(written))
        && ((bound || !ok) ==> file == old(file) && written == old(written))
    {
      if schema in entries && entries[schema].id == id && entries[schema].tier == Live {
        RetierKeepsIds(entries, Bump(schema, now));
        StaysWellFormed(entries, Bump(schema, now));
        entries := entries[schema := entries[schema].(lastActive := now)];
        dirty := true;
      } else {
        StaysWellFormed(entries, Bind(schema, Rec(id, now, Live)));
        entries := entries[schema := Rec(id, now, Live)];
        cache := None;
        var stamp, contents := Stamp();
        WriteLatest(stamp, contents, ok);
      }
    }

    method AdoptArchived(schema: string, now: nat, ok: bool) returns (prev: Option<Rec>)
      requires Valid()
      modifies this
      ensures Valid() && dirty == old(dirty)
      ensures WellFormed(old(entries)) && Clean(schema) && now < U64 ==> WellFormed(entries)
      ensures prev == if schema in old(entries) then Some(old(entries)[schema]) else None
      ensures entries == Mutate(old(entries), Bind(schema, Adopted(old(entries), schema, now)))
      ensures entries.Keys == old(entries).Keys + {schema} && entries[schema].tier == Archived
      ensures prev.Some? ==> entries[schema] == prev.value.(tier := Archived)
      ensures prev.None? ==> entries[schema].id == "pending-restore-" + schema && entries[schema].lastActive == now
      ensures ok ==> (Saved() <==> WellFormed(entries))
      ensures !ok ==> file == old(file)
    {
      if WellFormed(entries) && Clean(schema) && now < U64 {
        AdoptedIsSound(entries, schema, now);
      }
      StaysWellFormed(entries, Bind(schema, Adopted(entries, schema, now)));
      prev := if schema in entries then Some(entries[schema]) else None;
      var id := if prev.Some? then prev.value.id else ADOPTED_ID_PREFIX + schema;
      var lastActive := if prev.Some? then prev.value.lastActive else now;
      entries := entries[schema := Rec(id, lastActive, Archived)];
      cache := None;
      var stamp, contents := Stamp();
      WriteLatest(stamp, contents, ok);
    }

    /** Always the ids in the map, through whatever mutators left the cache alone. */
    method BoundIds() returns (ids: set<string>)
      requires Valid()
      modifies this`cache
      ensures Valid() && ids == Ids(entries) && cache == Some(ids)
    {
      if cache.Some? {
        return cache.value;
      }
      ids := set k | k in entries :: entries[k].id;
      cache := Some(ids);
    }

    method FlushDirty(ok: bool)
      requires Valid()
      modifies this`dirty, this`generation, this`written, this`file
      ensures Valid() && !dirty
      ensures old(dirty) && ok ==> (Saved() <==> WellFormed(entries))
      ensures !old(dirty) || !ok ==> file == old(file)
      ensures !old(dirty) ==> generation == old(generation) && written == old(written)
    {
      if !dirty {
        return;
      }
      dirty := false;
      var stamp, contents := Stamp();
      WriteLatest(stamp, contents, ok);
    }

    method Touch(schema: string, now: nat)
      requires Valid()
      modifies this`entries, this`dirty
      ensures WellFormed(old(entries)) && now < U64 ==> WellFormed(entries)
      ensures Valid() && entries == Mutate(old(entries), Bump(schema, now))
      ensures dirty == (old(dirty) || schema in old(entries))
    {
      if schema !in entries {
        return;
      }
      RetierKeepsIds(entries, Bump(schema, now));
      StaysWellFormed(entries, Bump(schema, now));
      entries := entries[schema := entries[schema].(lastActive := now)];
      dirty := true;
    }

    /** Nothing happens for a schema that is not there. */
    method SetTier(schema: string, tier: Tier, ok: bool)
      requires Valid()
      modifies this`entries, this`generation, this`written, this`file
      ensures Valid() && entries == Mutate(old(entries), Retier(schema, tier))
      ensures WellFormed(old(entries)) ==> WellFormed(entries)
      ensures schema in old(entries) && ok ==> (Saved() <==> WellFormed(entries))
      ensures schema !in old(entries) || !ok ==> file == old(file)
    {
      if schema !in entries {
        return;
      }
      RetierKeepsIds(entries, Retier(schema, tier));
      StaysWellFormed(entries, Retier(schema, tier));
      entries := entries[schema := entries[schema].(tier := tier)];
      var stamp, contents := Stamp();
      WriteLatest(stamp, contents, ok);
    }
  }

  lemma StaysWellFormed(m: Registry, mu: Mutation)
    ensures WellFormed(m) && Sound(m, mu) ==> WellFormed(Mutate(m, mu))
  {
    if WellFormed(m) && Sound(m, mu) {
      SoundKeepsWellFormed(m, mu);
    }
  }

  lemma DenotesExactly(m: Registry, order: seq<string>)
    requires Enumerates(order, m)
    ensures Denotes(Written(m, order), m) <==> WellFormed(m)
  {
    if WellFormed(m) {
      WrittenDenotes(m, order);
    } else {
      RoundTripExactly(m, order, 0);
    }
  }

  function Max(a: nat, b: nat): nat { if a >= b then a else b }
}
