/** The two normalisation rules applied to every decoded record, in order:
    host defaulting, then inference of an mmap call's sharing flags. */
module Transform {
  import opened Results
  import opened Json
  import opened Seqs

  const HostKey := "host"
  const EventKey := "event"
  const MemFlagsKey := "arg_mem_flags"
  const SharingFlagsKey := "arg_sharing_flags"
  const FdpathKey := "fdpath"

  /** The placeholder host of a record that arrives without one. */
  const UnknownHost := "44444444-4444-4444-4444-444444444444"
  /** The event tag of an mmap system call. */
  const MmapEvent := "audit:event:aue_mmap:"
  const ProtWrite := "PROT_WRITE"
  const MapShared := "MAP_SHARED"
  const MapPrivate := "MAP_PRIVATE"
  /** Directories whose files are shared libraries. */
  const LibraryPrefixes: seq<string> := ["/lib/", "/usr/local/lib/", "/usr/lib/"]

  /** A file under one of the library directories. */
  ghost predicate InLibrary(fdpath: string) {
    exists p :: p in LibraryPrefixes && p <= fdpath
  }

  /** Why `tf_mmap_share` panics: an `unwrap` on a field of the wrong shape. */
  datatype Fault =
    | MemFlagsNotArray  // `arg_mem_flags` is not an array
    | FdpathNotString   // `PROT_WRITE` is set but `fdpath` is missing or not a string

  /** Rule 1: a record without a `host` gets the placeholder host. */
  function HostUuid(rec: Record): (r: Record)
    ensures Extends(rec, r)
    ensures r.Keys == rec.Keys + {HostKey}
    ensures HostKey !in rec ==> r[HostKey] == String(UnknownHost)
  {
    if !Has(rec, HostKey) then Set(rec, HostKey, String(UnknownHost)) else rec
  }

  /** When rule 2 applies: an mmap event whose sharing flags are not yet known
      but whose memory flags are. */
  predicate MmapGuard(rec: Record) {
    && Get(rec, EventKey) == String(MmapEvent)
    && !Has(rec, SharingFlagsKey)
    && Has(rec, MemFlagsKey)
  }

  /** The memory flags, read as an array, hold `PROT_WRITE`. */
  predicate Writable(rec: Record) {
    MemFlagsKey in rec && rec[MemFlagsKey].Array? && String(ProtWrite) in rec[MemFlagsKey].elems
  }

  /** The mapping is writable and maps a file under a library directory. */
  ghost predicate WritableLibrary(rec: Record) {
    && Writable(rec)
    && FdpathKey in rec && rec[FdpathKey].String?
    && InLibrary(rec[FdpathKey].s)
  }

  lemma LibraryPrefixesListed(fdpath: string)
    ensures InLibrary(fdpath) <==> "/lib/" <= fdpath || "/usr/local/lib/" <= fdpath || "/usr/lib/" <= fdpath
  {
    assert LibraryPrefixes == ["/lib/", "/usr/local/lib/", "/usr/lib/"];
    if "/lib/" <= fdpath {
      assert LibraryPrefixes[0] == "/lib/";
      assert "/lib/" in LibraryPrefixes;
    } else if "/usr/local/lib/" <= fdpath {
      assert LibraryPrefixes[1] == "/usr/local/lib/";
      assert "/usr/local/lib/" in LibraryPrefixes;
    } else if "/usr/lib/" <= fdpath {
      assert LibraryPrefixes[2] == "/usr/lib/";
      assert "/usr/lib/" in LibraryPrefixes;
    }
  }

  /** The guarded record has a field of a shape that rule 2 cannot read. */
  predicate ShapeFault(rec: Record) {
    || (MemFlagsKey in rec && !rec[MemFlagsKey].Array?)
    || (Writable(rec) && !Get(rec, FdpathKey).String?)
  }

  /** The one-element flags array rule 2 derives for a guarded record. */
  ghost function SharingFlags(rec: Record): Value {
    Array([String(if WritableLibrary(rec) then MapShared else MapPrivate)])
  }

  /** The sharing flag of a writable mapping of the file at `fdpath`: shared
      exactly for library files. */
  function WritableMapping(fdpath: string): (flag: string)
    ensures flag == MapShared <==> InLibrary(fdpath)
    ensures flag == MapShared || flag == MapPrivate
  {
    LibraryPrefixesListed(fdpath);
    if StartsWith(fdpath, "/lib/")
       || StartsWith(fdpath, "/usr/local/lib/")
       || StartsWith(fdpath, "/usr/lib/")
    then MapShared
    else MapPrivate
  }

  /** Rule 2: infer `arg_sharing_flags` of an mmap call from its protection
      flags and the mapped file's path.  The `unwrap`s of the source become
      `Err` results. */
  function MmapShare(rec: Record): (r: Result<Record, Fault>)
    ensures !MmapGuard(rec) ==> r == Ok(rec)
    ensures MmapGuard(rec) ==> (r.Err? <==> ShapeFault(rec))
    ensures MmapGuard(rec) && !rec[MemFlagsKey].Array? ==> r == Err(MemFlagsNotArray)
    ensures MmapGuard(rec) && r.Ok? ==> r.value == rec[SharingFlagsKey := SharingFlags(rec)]
  {
    if !MmapGuard(rec) then Ok(rec)
    else
      match rec[MemFlagsKey]
      case Array(memFlags) =>
        if String(ProtWrite) in memFlags then
          match Get(rec, FdpathKey)
          case String(fdpath) =>
            Ok(Set(rec, SharingFlagsKey, Array([String(WritableMapping(fdpath))])))
          case _ => Err(FdpathNotString)
        else
          Ok(Set(rec, SharingFlagsKey, Array([String(MapPrivate)])))
      case _ => Err(MemFlagsNotArray)
  }

  /** `transform`: host defaulting, then mmap sharing-flag inference. */
  function Transform(rec: Record): (r: Result<Record, Fault>)
    ensures r.Err? <==> MmapGuard(rec) && ShapeFault(rec)
    ensures r.Ok? ==> Extends(rec, r.value)
    ensures r.Ok? ==> r.value.Keys <= rec.Keys + {HostKey, SharingFlagsKey}
    ensures r.Ok? ==> HostKey in r.value && (HostKey !in rec ==> r.value[HostKey] == String(UnknownHost))
    ensures r.Ok? ==> (SharingFlagsKey in r.value <==> SharingFlagsKey in rec || MmapGuard(rec))
    ensures r.Ok? && MmapGuard(rec) ==> r.value[SharingFlagsKey] == SharingFlags(rec)
  {
    var withHost := HostUuid(rec);
    GuardIgnoresHost(rec);
    MmapShare(withHost)
  }

  /** Rule 2 reads no field that rule 1 writes. */
  lemma GuardIgnoresHost(rec: Record)
    ensures MmapGuard(HostUuid(rec)) == MmapGuard(rec)
    ensures ShapeFault(HostUuid(rec)) == ShapeFault(rec)
    ensures WritableLibrary(HostUuid(rec)) == WritableLibrary(rec)
  {
  }

  /** Without `PROT_WRITE` the mapping is private and `fdpath` is never read:
      not even its absence or shape matters. */
  lemma PrivateWithoutWrite(rec: Record, fdpath: Option<Value>)
    requires MmapGuard(rec) && rec[MemFlagsKey].Array? && !Writable(rec)
    ensures var rec' := if fdpath.Some? then rec[FdpathKey := fdpath.value] else rec - {FdpathKey};
      MmapShare(rec') == Ok(rec'[SharingFlagsKey := Array([String(MapPrivate)])])
  {
  }

  /** Applying the rules to their own output changes nothing. */
  lemma TransformIdempotent(rec: Record)
    requires Transform(rec).Ok?
    ensures Transform(Transform(rec).value) == Transform(rec)
  {
  }

  /** The two rules touch disjoint fields, so their order does not matter. */
  lemma RulesCommute(rec: Record)
    ensures Transform(rec) == match MmapShare(rec)
                              case Ok(m) => Ok(HostUuid(m))
                              case Err(e) => Err(e)
  {
    GuardIgnoresHost(rec);
    if MmapGuard(rec) && !ShapeFault(rec) {
      var flags := SharingFlags(rec);
      assert SharingFlags(HostUuid(rec)) == flags;
      var a := Transform(rec).value;
      var b := HostUuid(MmapShare(rec).value);
      assert a == HostUuid(rec)[SharingFlagsKey := flags];
      assert b == HostUuid(rec[SharingFlagsKey := flags]);
      assert a.Keys == b.Keys;
      assert forall k :: k in a ==> a[k] == b[k];
      assert a == b;
      assert Transform(rec) == Ok(a);
      assert MmapShare(rec).Ok?;
    }
  }

  /** A writable mapping of a system library is shared. */
  lemma ExampleSharedLibrary()
    ensures var rec := map[EventKey := String(MmapEvent),
                           MemFlagsKey := Array([String(ProtWrite)]),
                           FdpathKey := String("/usr/lib/libc.so")];
      Transform(rec).Ok? && Transform(rec).value[SharingFlagsKey] == Array([String(MapShared)])
  {
  }

  /** A writable mapping of a file outside the library directories is private. */
  lemma ExamplePrivateFile()
    ensures var rec := map[EventKey := String(MmapEvent),
                           MemFlagsKey := Array([String(ProtWrite)]),
                           FdpathKey := String("/home/user/a.out")];
      Transform(rec).Ok? && Transform(rec).value[SharingFlagsKey] == Array([String(MapPrivate)])
  {
  }
}
