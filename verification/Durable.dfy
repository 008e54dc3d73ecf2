/** A file replaced by way of a second one that is synced and renamed, and what of it
    is left when the host crashes at any of these steps. */
module Durable {

  import opened Common

  // A file as it is cached; synced: the disk has the same.
  datatype File = File(content: string, synced: bool)

  /** A directory, its names as cached and as the disk has them, and the files. */
  datatype Fs = Fs(names: map<string, nat>, disk: map<string, nat>, files: map<nat, File>)

  // What a name is in one of the two.
  function At(names: map<string, nat>, name: string): Option<nat> {
    if name in names then Some(names[name]) else None
  }

  /** What the disk may hold once the host crashed: each name as it was cached or as
      it was on disk, a synced file as it was, any other anything. */
  ghost predicate AfterCrash(fs: Fs, gs: Fs) {
    && gs.disk == gs.names
    && (forall n :: At(gs.names, n) == At(fs.names, n) || At(gs.names, n) == At(fs.disk, n))
    && gs.files.Keys == fs.files.Keys
    && (forall i :: i in fs.files && fs.files[i].synced ==> gs.files[i].content == fs.files[i].content)
  }

  // What a file reads as: nothing where there is none.
  function ContentOf(fs: Fs, at: Option<nat>): Option<string> {
    if at.Some? && at.value in fs.files then Some(fs.files[at.value].content) else None
  }

  // What reading the name gives, and what the disk has under it.
  function Content(fs: Fs, name: string): Option<string> {
    ContentOf(fs, At(fs.names, name))
  }

  function OnDisk(fs: Fs, name: string): Option<string> {
    ContentOf(fs, At(fs.disk, name))
  }

  // No part of a file: what a name is, cached and on disk, is synced.
  ghost predicate Whole(fs: Fs, name: string) {
    && (name in fs.names ==> fs.names[name] in fs.files && fs.files[fs.names[name]].synced)
    && (name in fs.disk ==> fs.disk[name] in fs.files && fs.files[fs.disk[name]].synced)
  }

  /** After a crash a whole file is one of the two, never part of either. */
  lemma CrashKeepsOne(fs: Fs, gs: Fs, name: string)
    requires Whole(fs, name) && AfterCrash(fs, gs)
    ensures Content(gs, name) == Content(fs, name) || Content(gs, name) == OnDisk(fs, name)
  {
    assert At(gs.names, name) == At(fs.names, name) || At(gs.names, name) == At(fs.disk, name);
  }

  class Registry<Entry(!new)> {
    const path: string
    const encode: map<string, Entry> -> string
    const decode: string -> Option<map<string, Entry>>
    var fs: Fs
    ghost var failures: nat // how often a step of a write failed, or the host stopped at it

    // JSON reads back what it wrote.
    ghost predicate Codes() {
      forall m :: decode(encode(m)) == Some(m)
    }

    // What Load gives of a content.
    function Entries(c: Option<string>): Option<map<string, Entry>> {
      if c.None? then Some(map[]) else decode(c.value)
    }

    ghost predicate Valid()
      reads this
    {
      Codes() && Whole(fs, path)
    }

    constructor (path: string, encode: map<string, Entry> -> string, decode: string -> Option<map<string, Entry>>)
      requires forall m :: decode(encode(m)) == Some(m)
      ensures Valid() && this.path == path && this.encode == encode && this.decode == decode
      ensures Entries(Content(fs, path)) == Some(map[])
    {
      this.path, this.encode, this.decode := path, encode, decode;
      fs, failures := Fs(map[], map[], map[]), 0;
    }

    method Load() returns (m: Option<map<string, Entry>>)
      ensures m == Entries(Content(fs, path))
    {
      m := if Content(fs, path).None? then Some(map[]) else decode(Content(fs, path).value);
    }

    /** Writes b in place of the file. Where it stops, by an error or by the host's
        crash, the file is the old one or the new one; done, it is the new one. */
    method WriteDurably(b: string) returns (ok: bool)
      requires Whole(fs, path)
      modifies this`fs, this`failures
      ensures Whole(fs, path)
      ensures if ok then failures == old(failures) else failures == old(failures) + 1
      ensures Content(fs, path) == Content(old(fs), path) || Content(fs, path) == Some(b)
      ensures OnDisk(fs, path) == OnDisk(old(fs), path) || OnDisk(fs, path) == Some(b)
      ensures ok ==> Content(fs, path) == Some(b) == OnDisk(fs, path)
    {
      var tmp: string, i: nat, failed: bool := *, *, *;
      if failed || tmp in fs.names || tmp in fs.disk || tmp == path || i in fs.files {
        failures := failures + 1;
        return false;
      }
      fs := fs.(names := fs.names[tmp := i], files := fs.files[i := File("", false)]);
      var part: string, stops: bool := *, *;
      fs := fs.(files := fs.files[i := File(if stops then part else b, false)]);
      if stops {
        failures := failures + 1;
        return false;
      }
      stops := *;
      if stops {
        failures := failures + 1;
        return false;
      }
      fs := fs.(files := fs.files[i := File(b, true)]);
      stops := *;
      if stops {
        failures := failures + 1;
        return false;
      }
      fs := fs.(names := (fs.names - {tmp})[path := i]);
      stops := *;
      if stops {
        failures := failures + 1;
        return false;
      }
      fs := fs.(disk := fs.names);
      ok := true;
    }

    // The registry of that content with the entry put.
    function With(c: Option<string>, id: string, e: Entry): Option<map<string, Entry>> {
      if Entries(c).Some? then Some(Entries(c).value[id := e]) else None
    }

    /** Puts an entry. Whatever happens the registry then reads as it was or with
        this entry put, no other touched; so it does once the host crashed, unless an
        earlier write had not reached the disk. A put that is done reached it. */
    method Put(id: string, e: Entry) returns (ok: bool)
      requires Valid()
      modifies this`fs, this`failures
      ensures Valid()
      ensures !ok ==> Entries(Content(old(fs), path)).None? || failures > old(failures)
      ensures Content(fs, path) == Content(old(fs), path) || Entries(Content(fs, path)) == With(Content(old(fs), path), id, e)
      ensures ok ==> Entries(Content(old(fs), path)).Some?
                     && Entries(Content(fs, path)) == Some(Entries(Content(old(fs), path)).value[id := e])
      ensures forall gs :: AfterCrash(fs, gs) ==>
                || (!ok && (Content(gs, path) == Content(old(fs), path) || Content(gs, path) == OnDisk(old(fs), path)))
                || Entries(Content(gs, path)) == With(Content(old(fs), path), id, e)
    {
      var m := Load();
      ok := false;
      if m.Some? {
        var b := encode(m.value[id := e]);
        ok := WriteDurably(b);
      }
      forall gs | AfterCrash(fs, gs)
        ensures || (!ok && (Content(gs, path) == Content(old(fs), path) || Content(gs, path) == OnDisk(old(fs), path)))
                || Entries(Content(gs, path)) == With(Content(old(fs), path), id, e)
      {
        CrashKeepsOne(fs, gs, path);
      }
    }
  }
}
