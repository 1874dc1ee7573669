/** put: content-addressed blobs, published whole under their final name or not at all. */
module BlobStore {
  import opened Base
  import opened CatalogSchema
  import opened Files

  datatype Reading = Verified(content: Bytes) | NotFound | Refused

  datatype PutResult = Stored(ref: BlobRef) | BlobStoreError

  /** Every blob that is there is the preimage of its name. */
  ghost predicate Sound(view: View) {
    forall sha :: Blob(sha) in view ==> view[Blob(sha)] == sha.preimage
  }

  function RefOf(content: Bytes, mediaType: string): BlobRef {
    BlobRef(Sha256(content), |content|, mediaType, BlobPath(Sha256(content)))
  }

  /** _verified_bytes_at: the bytes under a name, if they have the digest and the size of the reference. */
  method VerifiedBytes(dir: Directory, ref: BlobRef) returns (r: Reading)
    requires dir.Valid()
    ensures r.Verified? ==> Look(dir.Shown(), Blob(ref.sha)) == Some(r.content) && r.content == ref.sha.preimage
    ensures r.NotFound? ==> Blob(ref.sha) !in dir.Shown()
    ensures Blob(ref.sha) in dir.Shown() && Sha256(dir.Shown()[Blob(ref.sha)]) != ref.sha ==> r.Refused?
  {
    if * {
      return Refused;
    }
    var content := dir.Read(Blob(ref.sha));
    if content.None? {
      return NotFound;
    }
    if Sha256(content.value) != ref.sha || |content.value| != ref.size {
      return Refused;
    }
    return Verified(content.value);
  }

  /** _publish_at: write a temporary file, check it, rename it; a temporary that stays is unlinked. */
  method PublishAt(dir: Directory, content: Bytes, sha: Sha256) returns (ok: bool)
    requires dir.Valid()
    modifies dir
    ensures dir.Valid() && old(dir.seen) <= dir.seen
    ensures ok ==> sha == Sha256(content) && Look(dir.Shown(), Blob(sha)) == Some(content)
    ensures Visible(dir.Shown(), old(dir.Shown()), Blob(sha), content)
    ensures AllVisible(dir.seen, |old(dir.seen)|, old(dir.Shown()), Blob(sha), content)
  {
    hide Directory.Valid, Directory.Shown;
    var temporary := dir.WritePrivate(Temporary, content);
    if temporary.None? {
      return false;
    }
    var written := dir.Read(temporary.value);
    if written.None? || Sha256(written.value) != sha {
      var _ := dir.Cleanup(temporary.value);
      return false;
    }
    ok := dir.Replace(temporary.value, Blob(sha));
    if !ok {
      var _ := dir.Cleanup(temporary.value);
    } else if * {
      ok := false;
    }
  }

  lemma VisibleKeepsSound(view: View, before: View, content: Bytes)
    requires Visible(view, before, Blob(Sha256(content)), content) && Sound(before)
    ensures Sound(view)
  {
    forall sha | Blob(sha) in view
      ensures view[Blob(sha)] == sha.preimage
    {
      assert Look(view, Blob(sha)) == Look(before, Blob(sha)) || Blob(sha) == Blob(Sha256(content));
    }
  }

  /** Whatever faults occur, the final name shows at every step what it showed before or the whole content; a
      blob that is there is not touched. */
  method Put(dir: Directory, content: Bytes, mediaType: string) returns (r: PutResult)
    requires dir.Valid()
    modifies dir
    ensures dir.Valid() && old(dir.seen) <= dir.seen
    ensures r.Stored? ==> r.ref == RefOf(content, mediaType) && Look(dir.Shown(), Blob(r.ref.sha)) == Some(content)
    ensures Visible(dir.Shown(), old(dir.Shown()), Blob(Sha256(content)), content)
    ensures AllVisible(dir.seen, |old(dir.seen)|, old(dir.Shown()), Blob(Sha256(content)), content)
    ensures Blob(Sha256(content)) in old(dir.Shown()) ==> dir.Shown() == old(dir.Shown()) && dir.seen == old(dir.seen)
    ensures Sound(old(dir.Shown())) ==> Sound(dir.Shown())
  {
    hide Directory.Valid, Directory.Shown;
    var ref := RefOf(content, mediaType);
    var existing := VerifiedBytes(dir, ref);
    if existing.Refused? {
      return BlobStoreError;
    }
    if existing.Verified? {
      if existing.content != content {
        return BlobStoreError;
      }
      return Stored(ref);
    }
    var published := PublishAt(dir, content, ref.sha);
    if Sound(old(dir.Shown())) {
      VisibleKeepsSound(dir.Shown(), old(dir.Shown()), content);
    }
    if !published {
      return BlobStoreError;
    }
    var again := VerifiedBytes(dir, ref);
    if again != Verified(content) {
      return BlobStoreError;
    }
    return Stored(ref);
  }
}
