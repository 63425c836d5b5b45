/** Immutable version objects and the pins that name them (internal/evolve/skill_package_version_store.go). */
module VersionStore {
  import opened Options
  import opened Packages
  import opened Skills

  /** Content and metadata files, keyed by the version they belong to. */
  datatype Objects = Objects(content: map<Source, string>, metadata: map<Source, Metadata>)

  /** The metadata file encodeVersionObjects produces for `v` stored as version `n`. */
  function MetadataOf(v: SkillVersion, n: int): Metadata {
    Metadata(v.skill, n, OfContent(v.prompt), v.permissions, v.dataClasses, v.budgetUSD)
  }

  /** The catalog pin for `v` stored as version `n`. */
  function PinOf(v: SkillVersion, n: int): Pin {
    Pin(Source(v.skill, n), OfContent(v.prompt), OfMetadata(MetadataOf(v, n)))
  }

  function Decoded(content: string, m: Metadata): SkillVersion {
    SkillVersion(m.skill, m.version, content, m.permissions, m.dataClasses, m.budgetUSD)
  }

  /** readVersionObjects: both files exist and the metadata binds the skill, the version and the content. */
  function ReadVersion(o: Objects, skill: string, n: int): Option<SkillVersion> {
    var k := Source(skill, n);
    if k !in o.content || k !in o.metadata then None
    else
      var m := o.metadata[k];
      if m.skill != skill || m.version != n || m.promptDigest != OfContent(o.content[k]) then None
      else Some(Decoded(o.content[k], m))
  }

  /** readPinnedVersion: the version reads back and carries exactly the pinned digests. */
  function ReadPinned(o: Objects, skill: string, n: int, pin: Pin): Option<SkillVersion> {
    if pin.source != Source(skill, n) then None
    else
      match ReadVersion(o, skill, n)
      case None => None
      case Some(v) =>
        if pin.content != OfContent(v.prompt) || pin.authority != OfMetadata(o.metadata[Source(skill, n)]) then None
        else Some(v)
  }

  /** verifyActiveVersion: the durable version a candidate's base stands for, if it is the active one. */
  function ActiveVersion(o: Objects, pins: map<string, Pin>, baseline: map<string, string>, base: SkillVersion,
                         personal: bool): Option<int> {
    if personal && base.skill in pins then
      var pin := pins[base.skill];
      if pin.source.skill == base.skill && pin.source.version >= 1
         && ReadPinned(o, base.skill, pin.source.version, pin) == Some(base)
      then Some(pin.source.version) else None
    else if base.version == 1 && base.skill in baseline && baseline[base.skill] == base.prompt then Some(1)
    else None
  }

  // ---- Writing ----

  /** Files are only ever added. */
  ghost predicate Grows(a: Objects, b: Objects) {
    (forall k :: k in a.content ==> k in b.content && b.content[k] == a.content[k])
    && (forall k :: k in a.metadata ==> k in b.metadata && b.metadata[k] == a.metadata[k])
  }

  /** writeImmutable for a content file: a second, different write is a collision. */
  function WriteContent(o: Objects, k: Source, c: string): Option<Objects> {
    if k in o.content then (if o.content[k] == c then Some(o) else None)
    else Some(o.(content := o.content[k := c]))
  }

  function WriteMetadata(o: Objects, k: Source, m: Metadata): Option<Objects> {
    if k in o.metadata then (if o.metadata[k] == m then Some(o) else None)
    else Some(o.(metadata := o.metadata[k := m]))
  }

  /** Every metadata file binds its content file. */
  ghost predicate Bound(o: Objects) {
    forall k :: k in o.metadata ==>
      k in o.content && o.metadata[k].skill == k.skill && o.metadata[k].version == k.version
      && o.metadata[k].promptDigest == OfContent(o.content[k])
  }

  lemma WritesOnlyGrow(o: Objects, k: Source, c: string, m: Metadata)
    ensures WriteContent(o, k, c).Some? ==> Grows(o, WriteContent(o, k, c).value) && WriteContent(o, k, c).value.content[k] == c
    ensures WriteMetadata(o, k, m).Some? ==> Grows(o, WriteMetadata(o, k, m).value) && WriteMetadata(o, k, m).value.metadata[k] == m
  {
  }

  /** What has been read once reads the same for ever. */
  lemma ReadsAreStable(a: Objects, b: Objects, skill: string, n: int)
    requires Grows(a, b) && ReadVersion(a, skill, n).Some?
    ensures ReadVersion(b, skill, n) == ReadVersion(a, skill, n)
  {
  }

  /** A pin reads back exactly when it is the pin of what is stored. */
  lemma PinReadsBack(o: Objects, skill: string, n: int, pin: Pin)
    requires Bound(o)
    ensures ReadPinned(o, skill, n, pin).Some? <==>
              ReadVersion(o, skill, n).Some? && pin == PinOf(ReadVersion(o, skill, n).value, n)
    ensures ReadPinned(o, skill, n, pin).Some? ==> ReadPinned(o, skill, n, pin) == ReadVersion(o, skill, n)
  {
  }

  /** Storing a version and reading it back returns it under its new number. */
  lemma StoredReadsBack(o: Objects, v: SkillVersion, n: int)
    requires Source(v.skill, n) in o.content && o.content[Source(v.skill, n)] == v.prompt
    requires Source(v.skill, n) in o.metadata && o.metadata[Source(v.skill, n)] == MetadataOf(v, n)
    ensures ReadVersion(o, v.skill, n) == Some(v.(version := n))
    ensures ReadPinned(o, v.skill, n, PinOf(v, n)) == Some(v.(version := n))
  {
  }

  /** The version directory, with ensureVersionObjects writing content before metadata. */
  class VersionDirectory {
    var objects: Objects

    constructor ()
      ensures objects == Objects(map[], map[]) && Bound(objects)
    {
      objects := Objects(map[], map[]);
    }

    method EnsureVersionObjects(v: SkillVersion, n: int) returns (ok: bool)
      requires Bound(objects)
      modifies this
      ensures Bound(objects) && Grows(old(objects), objects)
      ensures ok ==> ReadVersion(objects, v.skill, n) == Some(v.(version := n))
      ensures ok <==> v.prompt != ""
                      && WriteContent(old(objects), Source(v.skill, n), v.prompt).Some?
                      && WriteMetadata(old(objects), Source(v.skill, n), MetadataOf(v, n)).Some?
    {
      if v.prompt == "" {
        return false;
      }
      var k := Source(v.skill, n);
      var written := WriteContent(objects, k, v.prompt);
      if written.None? {
        return false;
      }
      objects := written.value;
      var bound := WriteMetadata(objects, k, MetadataOf(v, n));
      if bound.None? {
        return false;
      }
      objects := bound.value;
      ok := true;
    }
  }
}
