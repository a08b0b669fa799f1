/** The tailer: handling of modified files over the offsets table, and who frees which path. */
module Tailer {
  import opened Attempts
  import opened Chains
  import opened ChainsRuns
  import opened HashTable
  import opened Tailing

  /** The table of offsets holds what a map of paths holds. */
  ghost predicate Tracks(t: seq<Chain<nat>>, offsets: map<string, nat>)
    requires |t| == SIZE
  {
    forall p: string :: Hashable(Text(p)) ==> Lookup(t, Text(p)) == if p in offsets then Some(offsets[p]) else None
  }

  lemma TracksPut(t: seq<Chain<nat>>, offsets: map<string, nat>, p: string, length: nat)
    requires Sound(t) && Tracks(t, offsets) && Hashable(Text(p))
    ensures Tracks(Chains.Put(t, Text(p), length), offsets[p := length])
  {
    forall q: string | Hashable(Text(q))
      ensures Lookup(Chains.Put(t, Text(p), length), Text(q)) == if q in offsets[p := length] then
        Some(offsets[p := length][q]) else None
    {
      PutLaw(t, Text(p), length, Text(q));
      assert Lookup(t, Text(q)) == if q in offsets then Some(offsets[q]) else None;
    }
  }

  ghost function Strings(keys: set<Key>): set<Str> {
    set key | key in keys && key.Pointer? :: key.str
  }

  lemma NextPiece(content: string, position: nat, all: seq<string>, k: nat)
    requires position < |content| && k <= |all| && Pieces(content, position) == all[k..]
    ensures k < |all| && all[k] == content[position..LineEnd(content, position)]
    ensures Pieces(content, LineEnd(content, position)) == all[k + 1..]
  {
    var line, rest := content[position..LineEnd(content, position)], Pieces(content, LineEnd(content, position));
    assert Pieces(content, position) == [line] + rest;
    assert all[k] == ([line] + rest)[0];
    assert all[k + 1..] == all[k..][1..] == ([line] + rest)[1..] == rest;
  }

  lemma StringsAdd(keys: set<Key>, s: Str)
    ensures Strings(keys + {Pointer(s)}) == Strings(keys) + {s}
    ensures Pointer(s) in keys <==> s in Strings(keys)
  {
    if Pointer(s) in keys {
      assert Pointer(s).str in Strings(keys);
    }
    forall t | t in Strings(keys) + {s} ensures t in Strings(keys + {Pointer(s)}) {
      assert Pointer(t).Pointer?;
    }
  }

  class Tail {
    const memory: Memory
    const offsets: Table<nat>
    var log: seq<Piece>

    ghost predicate Valid()
      reads this, memory, offsets, offsets.buckets, offsets.repr
    {
      offsets.memory == memory && offsets.Valid() && offsets.KeysLive()
    }

    /** The strings stored as keys of the table. */
    ghost function Keys(): set<Key>
      reads offsets
    {
      KeysIn(offsets.nodes)
    }

    constructor (memory: Memory)
      ensures Valid() && fresh(offsets) && fresh(offsets.buckets) && fresh(offsets.repr) && this.memory == memory
      ensures Keys() == {} && log == [] && Tracks(offsets.State(), map[])
    {
      this.memory, log := memory, [];
      offsets := new Table<nat>(memory);
    }

    /** The strings allocated are `others` and the keys of the table: no path is left over, and
        none that is a key has been freed. */
    ghost predicate Owned(others: set<Str>)
      reads this, memory, offsets
    {
      memory.live == others + Strings(Keys()) && others !! Strings(Keys())
    }

    /** The log and the table are those of a world. */
    ghost predicate Follows(w: World)
      requires offsets.Linked()
      reads this, offsets, offsets.buckets, offsets.repr
    {
      log == w.log && Tracks(offsets.State(), w.offsets)
    }

    /** A modification is noticed under a path of its own: the log and the table move as the
        world does, and no path is left over. */
    method Notice(path: Str?, files: map<string, string>, ghost w: World, ghost others: set<Str>)
      requires Valid() && Follows(w) && w.files == files
      requires others !! Strings(Keys()) &&
        memory.live == others + Strings(Keys()) + if path == null then {} else {path}
      requires path != null ==> path !in others && Pointer(path) !in Keys() && Hashable(Text(path.text))
      modifies this, memory, offsets`nodes, offsets`repr, offsets.buckets, offsets.repr
      ensures Valid() && Owned(others) && forall n :: n in offsets.repr ==> n in old(offsets.repr) || fresh(n)
      ensures Follows(if path == null then w else Step(w, Modified(path.text)))
    {
      ghost var keys := Keys();
      if path != null {
        StringsAdd(keys, path);
      }
      if path != null && path.text in files {
        TracksPut(offsets.State(), w.offsets, path.text, |files[path.text]|);
      }
      HandleModified(path, files);
    }

    /** Ships what has been added to a file. The path is freshly allocated: it ends up as a key
        of the table, when the file opens and had no offset yet, or freed; the copy made of an
        unknown path is freed in every case. */
    method HandleModified(path: Str?, files: map<string, string>)
      requires Valid()
      requires path != null ==> path in memory.live && Pointer(path) !in Keys() && Hashable(Text(path.text))
      modifies this, memory, offsets`nodes, offsets`repr, offsets.buckets, offsets.repr
      ensures Valid() && forall n :: n in offsets.repr ==> n in old(offsets.repr) || fresh(n)
      ensures path == null ==> memory.live == old(memory.live) && Keys() == old(Keys())
      ensures path != null ==>
        var known, open := Lookup(old(offsets.State()), Text(path.text)).Some?, path.text in files;
        if open && !known then memory.live == old(memory.live) && Keys() == old(Keys()) + {Pointer(path)}
        else memory.live == old(memory.live) - {path} && Keys() == old(Keys())
      ensures path == null || path.text !in files ==> log == old(log) && offsets.State() == old(offsets.State())
      ensures path != null && path.text in files ==>
        var content, stored := files[path.text], Lookup(old(offsets.State()), Text(path.text));
        var offset := if stored.Some? then stored.value else 0;
        && log == old(log) + Labelled(path.text, Pieces(content, Resume(offset, |content|)))
        && offsets.State() == Chains.Put(old(offsets.State()), Text(path.text), |content|)
    {
      if path == null { return; }
      ghost var keys, state := Keys(), offsets.State();
      var current, offset := LookUp(path);
      assert Keys() == keys && offsets.State() == state;
      Follow(path, current, offset, files);
      Release(current);
      assert Keys() == keys + if path.text in files && path != current then {Pointer(path)} else {};
    }

    /** The offset of a path, and the path to go on with: a copy when there is no offset yet. */
    method LookUp(path: Str) returns (current: Str, offset: nat)
      requires Valid() && path in memory.live && Hashable(Text(path.text))
      modifies memory
      ensures Valid() && offsets.State() == old(offsets.State()) && current.text == path.text
      ensures match Lookup(old(offsets.State()), Text(path.text))
        case Some(value) => offset == value && current == path && memory.live == old(memory.live)
        case None => offset == 0 && fresh(current) && memory.live == old(memory.live) + {current}
    {
      var stored := offsets.Get(Pointer(path));
      if stored.None? {
        current := memory.Allocate(path.text);
        offset := 0;
      } else {
        current := path;
        offset := stored.value;
      }
    }

    /** Frees a string that is not a key. */
    method Release(s: Str)
      requires Valid() && s in memory.live && Pointer(s) !in Keys()
      modifies memory
      ensures Valid() && offsets.State() == old(offsets.State()) && memory.live == old(memory.live) - {s}
    {
      memory.Free(s);
    }

    /** The part of the handling that opens the file, under the path as it will be freed; an
        unknown path is kept as a key or freed. */
    method Follow(path: Str, current: Str, offset: nat, files: map<string, string>)
      requires Valid() && path in memory.live && current.text == path.text && Hashable(Text(path.text))
      requires path != current <==> Lookup(offsets.State(), Text(path.text)).None?
      requires Pointer(path) !in Keys()
      modifies this`log, memory, offsets`nodes, offsets`repr, offsets.buckets, offsets.repr
      ensures Valid() && forall n :: n in offsets.repr ==> n in old(offsets.repr) || fresh(n)
      ensures memory.live == old(memory.live) - if path.text !in files && path != current then {path} else {}
      ensures Keys() == old(Keys()) + if path.text in files && path != current then {Pointer(path)} else {}
      ensures path.text !in files ==> log == old(log) && offsets.State() == old(offsets.State())
      ensures path.text in files ==>
        var content := files[path.text];
        && log == old(log) + Labelled(path.text, Pieces(content, Resume(offset, |content|)))
        && offsets.State() == Chains.Put(old(offsets.State()), Text(path.text), |content|)
    {
      if current.text in files {
        var content := files[current.text];
        var end := Ship(current.text, content, offset);
        offsets.Put(Pointer(path), end);
      } else {
        if path != current { Release(path); }
      }
    }

    /** Reads a file line by line, from an offset or from the start when it is shorter. */
    method Ship(path: string, content: string, offset: nat) returns (position: nat)
      modifies this`log
      ensures position == |content|
      ensures log == old(log) + Labelled(path, Pieces(content, Resume(offset, |content|)))
    {
      var start := offset;
      if |content| < offset { start := 0; }
      position := start;
      ghost var all, k := Pieces(content, start), 0;
      ghost var labelled := Labelled(path, all);
      while position < |content|
        invariant start <= position <= |content| && k <= |all| && Pieces(content, position) == all[k..]
        invariant log == old(log) + labelled[..k]
      {
        NextPiece(content, position, all, k);
        var end := LineEnd(content, position);
        var piece := Piece(path, content[position..end]);
        assert labelled[..k + 1] == labelled[..k] + [piece];
        assert old(log) + labelled[..k] + [piece] == old(log) + (labelled[..k] + [piece]);
        log := log + [piece];
        position := end;
        k := k + 1;
      }
      assert labelled[..k] == labelled;
    }

    /** Records the length of a file found at the start. The path is freed when the file does
        not open, and becomes a key when it is new; a path that is known already is left over. */
    method SetupOffset(path: Str, files: map<string, string>)
      requires Valid() && path in memory.live && Pointer(path) !in Keys() && Hashable(Text(path.text))
      modifies memory, offsets`nodes, offsets`repr, offsets.buckets, offsets.repr
      ensures Keys() == old(Keys()) +
        if path.text in files && Lookup(old(offsets.State()), Text(path.text)).None? then {Pointer(path)} else {}
      ensures Valid() && forall n :: n in offsets.repr ==> n in old(offsets.repr) || fresh(n)
      ensures memory.live == old(memory.live) - if path.text in files then {} else {path}
      ensures path in memory.live && Pointer(path) !in Keys() <==>
        path.text in files && Lookup(old(offsets.State()), Text(path.text)).Some?
      ensures offsets.State() == if path.text in files then
        Chains.Put(old(offsets.State()), Text(path.text), |files[path.text]|) else old(offsets.State())
    {
      if path.text in files {
        offsets.Put(Pointer(path), |files[path.text]|);
      } else {
        memory.Free(path);
      }
    }

    /** The same, in terms of what is recorded; `others` are strings that are not keys. */
    method Measure(path: Str, files: map<string, string>, ghost m: map<string, nat>, ghost others: set<Str>)
      requires Valid() && Tracks(offsets.State(), m) && others <= memory.live && others !! Strings(Keys())
      requires path in memory.live && path !in others + Strings(Keys()) && Hashable(Text(path.text))
      modifies memory, offsets`nodes, offsets`repr, offsets.buckets, offsets.repr
      ensures Valid() && others <= memory.live && others !! Strings(Keys())
      ensures forall n :: n in offsets.repr ==> n in old(offsets.repr) || fresh(n)
      ensures Tracks(offsets.State(), if path.text in files then m[path.text := |files[path.text]|] else m)
    {
      ghost var keys := Keys();
      StringsAdd(keys, path);
      if path.text in files {
        TracksPut(offsets.State(), m, path.text, |files[path.text]|);
      }
      SetupOffset(path, files);
      assert Keys() == keys || Keys() == keys + {Pointer(path)};
    }
  }
}
