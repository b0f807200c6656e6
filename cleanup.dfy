/**
 * The preview cleanup service (app/services/cleanup.py). The previews directory is a
 * table from entry name to entry, an entry being a file or a directory of further
 * entries. Removing a preview deletes its entry. The clock is an input (`now`), as is
 * the set of entries whose removal raises (`failing`, for instance for lack of
 * permission).
 */
module Cleanup {
  import opened Wrappers

  /** A directory entry: a file, or a directory and its entries by name. */
  datatype Entry = File | Dir(children: map<string, Entry>)

  /**
   * The `expires_at` of a project's metadata: a datetime (as a point on the clock), or
   * anything else (missing, `None`, a string ...), which never expires.
   */
  datatype Expiry = NoExpiry | ExpiresAt(time: int)

  /**
   * What a path under the previews directory names: `[]` is the previews directory
   * itself; `None` when nothing exists there (a missing name, or a name looked up inside
   * a file).
   */
  function Lookup(entries: map<string, Entry>, path: seq<string>): (r: Option<Entry>)
    ensures path == [] ==> r == Some(Dir(entries))
    ensures |path| == 1 ==> r == if path[0] in entries then Some(entries[path[0]]) else None
    decreases |path|
  {
    if path == [] then Some(Dir(entries))
    else if path[0] !in entries then None
    else if |path| == 1 then Some(entries[path[0]])
    else match entries[path[0]]
      case File => None
      case Dir(children) => Lookup(children, path[1..])
  }

  /** `path.exists()` */
  predicate Exists(entries: map<string, Entry>, path: seq<string>) {
    Lookup(entries, path).Some?
  }

  /**
   * `validate_preview_structure`: the preview's "dist" exists and "dist/index.html"
   * exists.
   */
  function ValidatePreviewStructure(entries: map<string, Entry>, path: seq<string>): (ok: bool)
    ensures ok <==> Exists(entries, path + ["dist"]) && Exists(entries, path + ["dist", "index.html"])
  {
    Exists(entries, path + ["dist"]) && Exists(entries, path + ["dist", "index.html"])
  }

  /** Something exists inside a path only when that path is an existing directory. */
  lemma {:induction false} LookupParent(entries: map<string, Entry>, path: seq<string>, name: string)
    requires Exists(entries, path + [name])
    ensures Exists(entries, path) && Lookup(entries, path).value.Dir?
    decreases |path|
  {
    if path != [] {
      var p := path + [name];
      assert p[0] == path[0] && p[0] in entries;
      if |path| > 1 {
        assert p[1..] == path[1..] + [name];
        LookupParent(entries[path[0]].children, path[1..], name);
      }
    }
  }

  /**
   * The "dist" check is implied by the "index.html" check: a preview is valid exactly
   * when "dist/index.html" exists.
   */
  lemma ValidIffIndexExists(entries: map<string, Entry>, path: seq<string>)
    ensures ValidatePreviewStructure(entries, path) <==> Exists(entries, path + ["dist", "index.html"])
  {
    if Exists(entries, path + ["dist", "index.html"]) {
      assert path + ["dist", "index.html"] == (path + ["dist"]) + ["index.html"];
      LookupParent(entries, path + ["dist"], "index.html");
    }
  }

  /** Removing a top-level entry leaves every path under another top-level name as it was. */
  lemma {:induction false} RemovalKeepsOthers(entries: map<string, Entry>, name: string, path: seq<string>)
    requires path != [] && path[0] != name
    ensures Lookup(entries - {name}, path) == Lookup(entries, path)
  {
  }

  /** A removed preview is no longer valid; every other preview keeps its validity. */
  lemma RemovedPreviewIsInvalid(entries: map<string, Entry>, name: string, path: seq<string>)
    requires path != []
    ensures path[0] == name ==> !ValidatePreviewStructure(entries - {name}, path)
    ensures path[0] != name ==>
      ValidatePreviewStructure(entries - {name}, path) == ValidatePreviewStructure(entries, path)
  {
    var dist := path + ["dist"];
    var index := path + ["dist", "index.html"];
    assert dist[0] == path[0] && index[0] == path[0];
    if path[0] != name {
      RemovalKeepsOthers(entries, name, dist);
      RemovalKeepsOthers(entries, name, index);
    } else {
      assert dist[0] !in entries - {name};
    }
  }

  /**
   * Whether a preview is due for removal: it belongs to no active project, or its
   * project's expiry is a datetime that `now` is past.
   */
  predicate ShouldRemove(name: string, active: map<string, Expiry>, now: int)
    ensures name !in active ==> ShouldRemove(name, active, now)
    ensures name in active && active[name].NoExpiry? ==> !ShouldRemove(name, active, now)
  {
    name !in active || (active[name].ExpiresAt? && now > active[name].time)
  }

  /** A preview that is due stays due as the clock moves on. */
  lemma DueStaysDue(name: string, active: map<string, Expiry>, now: int, later: int)
    requires now <= later && ShouldRemove(name, active, now)
    ensures ShouldRemove(name, active, later)
  {
  }

  /**
   * The previews a cleanup removes: the directories due for removal whose removal does not
   * raise. `expire_hours` plays no part.
   */
  function Doomed(entries: map<string, Entry>, failing: set<string>, active: map<string, Expiry>, now: int): (d: set<string>)
    ensures d <= entries.Keys
  {
    set name | name in entries && entries[name].Dir? && name !in failing && ShouldRemove(name, active, now)
  }

  /** Files in the previews directory are never removed by a cleanup. */
  lemma FilesAreKept(entries: map<string, Entry>, failing: set<string>, active: map<string, Expiry>, now: int, name: string)
    requires name in entries && entries[name].File?
    ensures var after := entries - Doomed(entries, failing, active, now);
      name in after && after[name] == File
  {
  }

  /** The preview of an active project that has not expired is kept as it was. */
  lemma UnexpiredPreviewIsKept(entries: map<string, Entry>, failing: set<string>, active: map<string, Expiry>, now: int, name: string)
    requires name in entries && name in active
    requires !(active[name].ExpiresAt? && now > active[name].time)
    ensures var after := entries - Doomed(entries, failing, active, now);
      name in after && after[name] == entries[name]
  {
  }

  /**
   * An orphaned preview (one whose name is not an active project) and an expired one are
   * removed, unless removing them raises.
   */
  lemma DuePreviewIsRemoved(entries: map<string, Entry>, failing: set<string>, active: map<string, Expiry>, now: int, name: string)
    requires name in entries && entries[name].Dir? && name !in failing
    requires name !in active || (active[name].ExpiresAt? && now > active[name].time)
    ensures name !in entries - Doomed(entries, failing, active, now)
  {
  }

  /** Removing more previews one by one: the previews removed so far, then one more. */
  lemma RemoveOneMore(entries: map<string, Entry>, gone: set<string>, name: string)
    ensures (entries - gone) - {name} == entries - (gone + {name})
  {
  }

  /**
   * How far `shutil.rmtree` gets through a listing: the position of the first entry whose
   * removal raises, or the whole listing.
   */
  function Reached(order: seq<string>, failing: set<string>): (n: nat)
    ensures n <= |order|
    ensures forall i :: 0 <= i < n ==> order[i] !in failing
    ensures n < |order| ==> order[n] in failing
  {
    if order == [] || order[0] in failing then 0 else 1 + Reached(order[1..], failing)
  }

  /** The names among the first `n` of a listing. */
  function Listed(order: seq<string>, n: nat): set<string>
    requires n <= |order|
  {
    set i | 0 <= i < n :: order[i]
  }

  lemma ListedOneMore(order: seq<string>, n: nat)
    requires n < |order|
    ensures Listed(order, n + 1) == Listed(order, n) + {order[n]}
  {
    assert order[n] in Listed(order, n + 1);
  }

  /** The previews directory (`PREVIEWS_DIR`) and the operations that delete from it. */
  class PreviewsDir {
    var entries: map<string, Entry>
    /** The entries whose `shutil.rmtree` raises. */
    const failing: set<string>

    constructor (entries: map<string, Entry>, failing: set<string>)
      ensures this.entries == entries && this.failing == failing
    {
      this.entries := entries;
      this.failing := failing;
    }

    /**
     * `_remove_preview_dir(PREVIEWS_DIR / name)`: an existing directory is removed and
     * the answer is true; a missing name, a file, or a removal that raises changes
     * nothing and gives false. It never raises.
     */
    method RemovePreviewDir(name: string) returns (removed: bool)
      modifies this
      ensures removed <==> name in old(entries) && old(entries)[name].Dir? && name !in failing
      ensures entries == if removed then old(entries) - {name} else old(entries)
    {
      if name in entries && entries[name].Dir? && name !in failing {
        entries := entries - {name};
        removed := true;
      } else {
        removed := false;
      }
    }

    /**
     * `_remove_preview_dir(PREVIEWS_DIR)`: the previews directory itself, which always
     * exists. `shutil.rmtree` deletes its entries in the order the directory lists them
     * (`order`) and raises at the first one that cannot be removed: the entries listed
     * before it are gone, it and the rest remain, and the answer is false. When none fails
     * everything is removed and the answer is true.
     */
    method RemoveAllPreviews(order: seq<string>) returns (removed: bool)
      requires forall k :: k in entries <==> k in order
      modifies this
      ensures removed <==> old(entries).Keys * failing == {}
      ensures removed <==> Reached(order, failing) == |order|
      ensures entries == old(entries) - Listed(order, Reached(order, failing))
    {
      var i := 0;
      while i < |order| && order[i] !in failing
        invariant i <= Reached(order, failing)
        invariant entries == old(entries) - Listed(order, i)
      {
        ListedOneMore(order, i);
        entries := entries - {order[i]};
        i := i + 1;
      }
      removed := i == |order|;
      if !removed {
        assert order[i] in old(entries).Keys * failing;
      }
    }

    /**
     * `cleanup_preview_by_id`: "" and "." name the previews directory itself (pathlib
     * drops them when joining), every other id the entry of that name.
     */
    method CleanupPreviewById(appId: string, order: seq<string>) returns (removed: bool)
      requires appId == "" || appId == "." ==> forall k :: k in entries <==> k in order
      modifies this
      ensures appId == "" || appId == "." ==>
        && (removed <==> old(entries).Keys * failing == {})
        && entries == old(entries) - Listed(order, Reached(order, failing))
      ensures appId != "" && appId != "." ==>
        && (removed <==> appId in old(entries) && old(entries)[appId].Dir? && appId !in failing)
        && entries == if removed then old(entries) - {appId} else old(entries)
    {
      if appId == "" || appId == "." {
        removed := RemoveAllPreviews(order);
      } else {
        removed := RemovePreviewDir(appId);
      }
    }

    /**
     * `cleanup_expired_previews`: every directory due for removal is removed, in whatever
     * order the directory lists its entries, and `cleaned_count` is the number of
     * removals that succeeded. `expire_hours` is accepted and not used.
     */
    method CleanupExpiredPreviews(active: map<string, Expiry>, now: int, expireHours: int) returns (cleanedCount: nat)
      modifies this
      ensures cleanedCount == |Doomed(old(entries), failing, active, now)|
      ensures entries == old(entries) - Doomed(old(entries), failing, active, now)
    {
      ghost var start := entries;
      ghost var doomed := Doomed(start, failing, active, now);
      ghost var gone: set<string> := {};
      var todo := entries.Keys;
      cleanedCount := 0;
      while todo != {}
        invariant todo <= start.Keys
        invariant gone == (start.Keys - todo) * doomed
        invariant entries == start - gone
        invariant cleanedCount == |gone|
        decreases |todo|
      {
        var name :| name in todo;
        ghost var done := start.Keys - todo;
        assert name !in gone;
        assert name in entries && entries[name] == start[name];
        var due := entries[name].Dir? && ShouldRemove(name, active, now);
        if due {
          var removed := RemovePreviewDir(name);
          if removed {
            RemoveOneMore(start, gone, name);
            gone := gone + {name};
            cleanedCount := cleanedCount + 1;
          }
        }
        assert name in doomed <==> name in gone;
        MarkDone(done, doomed, gone, name);
        MoveOne(start.Keys, todo, name);
        todo := todo - {name};
      }
      assert gone == doomed;
    }
  }

  /** One more name looked at: it joins the removed names exactly when it was doomed. */
  lemma MarkDone(done: set<string>, doomed: set<string>, gone: set<string>, name: string)
    requires gone - {name} == done * doomed && name !in done
    requires name in gone <==> name in doomed
    ensures gone == (done + {name}) * doomed
  {
    forall x ensures x in gone <==> x in (done + {name}) * doomed {
      if x != name {
        assert x in gone <==> x in gone - {name};
      }
    }
  }

  /** Moving one name from the names to look at to the names looked at. */
  lemma MoveOne(all: set<string>, todo: set<string>, name: string)
    requires name in todo && todo <= all
    ensures all - (todo - {name}) == (all - todo) + {name}
    ensures name !in all - todo
  {
  }
}
