/** The part of a filesystem that the blob store and the index builder use: names bound to inodes, inodes holding
    bytes, and operations that may write only part of a block or fail at any step. */
module Files {
  import opened Base

  datatype Purpose = ForCandidate | ForPublish | ForRollback | ForRestore | Temporary

  /** Private names are drawn at random and retried until unused; here they are numbered. */
  datatype Name = PublishedIndex | Blob(sha: Sha256) | Private(purpose: Purpose, token: nat)

  type View = map<Name, Bytes>

  function Look(view: View, name: Name): Option<Bytes> {
    if name in view then Some(view[name]) else None
  }

  /** Two views that differ only in private files. */
  ghost predicate SamePublic(view: View, before: View) {
    forall n: Name :: !n.Private? ==> Look(view, n) == Look(before, n)
  }

  ghost predicate AllSamePublic(views: seq<View>, k: nat, before: View) {
    forall i :: k <= i < |views| ==> SamePublic(views[i], before)
  }

  /** Only the content of one file may differ. */
  ghost predicate SameExcept(view: View, before: View, name: Name) {
    view.Keys == before.Keys && forall n :: n in before && n != name ==> view[n] == before[n]
  }

  /** Everything an earlier view shows is still shown, and nothing public is new. */
  ghost predicate Adds(view: View, before: View) {
    && (forall n :: n in before ==> n in view && view[n] == before[n])
    && (forall n :: n in view && !n.Private? ==> n in before)
  }

  lemma AddsCopy(copied: View, created: View, before: View, name: Name)
    requires name.Private? && name !in before && created == before[name := []] && SameExcept(copied, created, name)
    ensures Adds(copied, before) && SamePublic(copied, before) && SamePublic(created, before)
    ensures Adds(copied - {name}, before)
  {
  }

  /** Steps on private files, each seen from the view before it. */
  lemma SameTail(views: seq<View>, later: seq<View>, k: nat, before: View, middle: View)
    requires views <= later && k <= |views| && AllSamePublic(views, k, before)
    requires SamePublic(middle, before) && AllSamePublic(later, |views|, middle)
    ensures AllSamePublic(later, k, before)
  {
  }

  /** Apart from private files, the view differs from an earlier one at most in that one name shows `content`. */
  ghost predicate Visible(view: View, before: View, name: Name, content: Bytes) {
    && (Look(view, name) == Look(before, name) || Look(view, name) == Some(content))
    && (forall n: Name :: !n.Private? && n != name ==> Look(view, n) == Look(before, n))
  }

  ghost predicate AllVisible(views: seq<View>, k: nat, before: View, name: Name, content: Bytes) {
    forall i :: k <= i < |views| ==> Visible(views[i], before, name, content)
  }

  class Directory {
    var names: map<Name, Id>
    var data: map<Id, Bytes>
    var next: nat

    /** What every name showed after each operation. */
    ghost var seen: seq<View>

    ghost predicate Valid()
      reads this
    {
      && (forall n :: n in names ==> names[n] in data)
      && (forall m, n :: m in names && n in names && names[m] == names[n] ==> m == n)
      && (forall i :: i in data ==> i < next)
      && (forall n: Name :: n in names && n.Private? ==> n.token < next)
    }

    ghost function Shown(): View
      requires Valid()
      reads this
    {
      map n | n in names :: data[names[n]]
    }

    constructor ()
      ensures Valid() && Shown() == map[] && seen == []
    {
      names, data, next, seen := map[], map[], 0, [];
    }

    /** The bytes of a file. */
    method Read(name: Name) returns (content: Option<Bytes>)
      requires Valid()
      ensures content == Look(Shown(), name)
    {
      return if name in names then Some(data[names[name]]) else None;
    }

    /** Creates an empty private file. */
    method Create(purpose: Purpose) returns (r: Option<Name>)
      requires Valid()
      modifies this
      ensures Valid()
      ensures r.None? ==> Shown() == old(Shown()) && seen == old(seen)
      ensures r.Some? ==>
        && r.value.Private? && r.value !in old(Shown())
        && Shown() == old(Shown())[r.value := []] && seen == old(seen) + [Shown()]
    {
      if * {
        return None;
      }
      var name := Private(purpose, next);
      names, data, next := names[name := next], data[next := []], next + 1;
      seen := seen + [Shown()];
      return Some(name);
    }

    /** A write through the descriptor of a file: at least one byte of the block, or a fault. */
    method Append(name: Name, block: Bytes) returns (written: Option<nat>)
      requires Valid() && name in Shown() && block != []
      modifies this
      ensures Valid()
      ensures written.None? ==> Shown() == old(Shown()) && seen == old(seen)
      ensures written.Some? ==>
        && 1 <= written.value <= |block|
        && Shown() == old(Shown())[name := old(Shown()[name]) + block[..written.value]]
        && seen == old(seen) + [Shown()]
    {
      if * {
        return None;
      }
      var count :| 1 <= count <= |block|;
      data := data[names[name] := data[names[name]] + block[..count]];
      seen := seen + [Shown()];
      return Some(count);
    }

    /** os.replace: the target name is rebound in one step. */
    method Replace(source: Name, target: Name) returns (ok: bool)
      requires Valid() && source in Shown() && source != target && !target.Private?
      modifies this
      ensures Valid()
      ensures !ok ==> Shown() == old(Shown()) && seen == old(seen)
      ensures ok ==>
        && Shown() == (old(Shown()) - {source})[target := old(Shown()[source])]
        && seen == old(seen) + [Shown()]
    {
      if * {
        return false;
      }
      names := (names - {source})[target := names[source]];
      seen := seen + [Shown()];
      return true;
    }

    method Unlink(name: Name) returns (ok: bool)
      requires Valid()
      modifies this
      ensures Valid()
      ensures !ok ==> Shown() == old(Shown()) && seen == old(seen)
      ensures ok ==> Shown() == old(Shown()) - {name} && seen == old(seen) + [Shown()]
    {
      if * {
        return false;
      }
      names := names - {name};
      seen := seen + [Shown()];
      return true;
    }

    /** The loop that writes a whole content into a private file, however little each write takes. */
    method WriteAll(name: Name, content: Bytes) returns (ok: bool)
      requires Valid() && name in Shown() && name.Private?
      modifies this
      ensures Valid() && SameExcept(Shown(), old(Shown()), name)
      ensures ok ==> Shown()[name] == old(Shown()[name]) + content
      ensures old(seen) <= seen && AllSamePublic(seen, |old(seen)|, old(Shown()))
    {
      hide Directory.Valid, Directory.Shown;
      var written := 0;
      while written < |content|
        invariant Valid() && written <= |content| && SameExcept(Shown(), old(Shown()), name)
        invariant Shown()[name] == old(Shown()[name]) + content[..written]
        invariant old(seen) <= seen && AllSamePublic(seen, |old(seen)|, old(Shown()))
      {
        var count := Append(name, content[written..]);
        if count.None? {
          return false;
        }
        assert content[..written] + content[written..][..count.value] == content[..written + count.value];
        written := written + count.value;
      }
      return true;
    }

    /** Unlinks a private file that is still there, unless a fault prevents it. */
    method Cleanup(name: Name) returns (ok: bool)
      requires Valid() && name.Private?
      modifies this
      ensures Valid() && old(seen) <= seen && AllSamePublic(seen, |old(seen)|, old(Shown()))
      ensures Shown() == old(Shown()) || Shown() == old(Shown()) - {name}
    {
      if name in names {
        ok := Unlink(name);
      } else {
        ok := true;
      }
    }

    /** A new private file with a content, or none. */
    method WritePrivate(purpose: Purpose, content: Bytes) returns (r: Option<Name>)
      requires Valid()
      modifies this
      ensures Valid() && Adds(Shown(), old(Shown()))
      ensures old(seen) <= seen && AllSamePublic(seen, |old(seen)|, old(Shown()))
      ensures r.Some? ==>
        r.value.Private? && r.value !in old(Shown()) && r.value in Shown() && Shown()[r.value] == content
    {
      hide Directory.Valid, Directory.Shown;
      var name := Create(purpose);
      if name.None? {
        return None;
      }
      ghost var k, created := |old(seen)|, Shown();
      assert seen[k] == created;
      var ok := WriteAll(name.value, content);
      AddsCopy(Shown(), created, old(Shown()), name.value);
      SameTail(seen[..k + 1], seen, k, old(Shown()), created);
      if !ok {
        ghost var views, middle := seen, Shown();
        var _ := Cleanup(name.value);
        SameTail(views, seen, k, old(Shown()), middle);
        return None;
      }
      return name;
    }
  }
}
