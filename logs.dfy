/** The log store of lib/logs.js: a directory of `<id>.log` text files and
    `<id>.gz.b64` archives, modelled as a map from file name to contents held
    by a `Logs` object whose methods change it. The directory path, file
    descriptors and the gzip and base64 internals are not modelled: the
    archive codec is a pair of functions known only through its round trip. */
module LogStore {
  import opened Json

  const LogExt := ".log"
  const ArchiveExt := ".gz.b64"

  type Files = map<string, string>

  /** What the store needs of gzip-then-base64: decoding gives back what was
      encoded, and an encoding is never the empty text. */
  ghost predicate Codec(encode: string -> string, decode: string -> Option<string>)
  {
    forall s :: decode(encode(s)) == Some(s) && encode(s) != ""
  }

  /** A trivial codec, showing that the requirement can be met. */
  function TagEncode(s: string): string
  {
    "b" + s
  }

  function TagDecode(t: string): Option<string>
  {
    if |t| > 0 && t[0] == 'b' then Some(t[1..]) else None
  }

  lemma CodecSatisfiable()
    ensures Codec(TagEncode, TagDecode)
  {
    forall s ensures TagDecode(TagEncode(s)) == Some(s) {
      assert TagEncode(s)[1..] == s;
    }
  }

  /** A log file and an archive never share a name: the extensions end in
      different characters. */
  lemma ExtensionsDiffer(a: string, b: string)
    ensures a + LogExt != b + ArchiveExt
  {
    var x, y := a + LogExt, b + ArchiveExt;
    assert x[|x| - 1] == 'g';
    assert y[|y| - 1] == '4';
  }

  // ---------------------------------------------------------------------
  // The specification of each operation, as a function of the files

  /** The result of an operation that reports through an error-first callback;
      `err` is a truthy error argument. */
  datatype FsResult = FsResult(err: bool, files: Files)

  /** `append(file, str)`: open `file.log` for appending (creating it) and
      write `str` followed by a newline. */
  function Appended(files: Files, file: string, str: string): Files
  {
    var name := file + LogExt;
    files[name := (if name in files then files[name] else "") + str + "\n"]
  }

  /** `truncate(logId)`: empty `logId.log`; a missing file is an error. */
  function Truncated(files: Files, logId: string): FsResult
  {
    var name := logId + LogExt;
    if name in files then FsResult(false, files[name := ""]) else FsResult(true, files)
  }

  /** `compress(logId, newFileId)`. A missing source is a read error. An empty
      source fails the `!err && inputString` test with no error, so the
      callback reports none and nothing is written. The archive is opened with
      'wx', which refuses an existing file. */
  function Compressed(files: Files, logId: string, newFileId: string,
                      encode: string -> string): FsResult
  {
    var src := logId + LogExt;
    var dst := newFileId + ArchiveExt;
    if src !in files then FsResult(true, files)
    else if files[src] == "" then FsResult(false, files)
    else if dst in files then FsResult(true, files)
    else FsResult(false, files[dst := encode(files[src])])
  }

  /** What `decompress` hands its callback: an error, no error and no text
      (an empty archive fails the `!err && str` test), or the text. */
  datatype Restored = Failed | NoData | Text(s: string)

  function Decompressed(files: Files, fileId: string,
                        decode: string -> Option<string>): Restored
  {
    var name := fileId + ArchiveExt;
    if name !in files then Failed
    else if files[name] == "" then NoData
    else match decode(files[name])
      case None => Failed
      case Some(s) => Text(s)
  }

  /** The names one directory entry contributes to `list(includeCompressedLogs)`. */
  predicate ListsAs(entry: string, withArchives: bool, name: string)
  {
    || (Contains(entry, LogExt) && name == RemoveFirst(entry, LogExt))
    || (withArchives && Contains(entry, ArchiveExt) && name == RemoveFirst(entry, ArchiveExt))
  }

  function ListedEntry(entry: string, withArchives: bool): seq<string>
  {
    (if Contains(entry, LogExt) then [RemoveFirst(entry, LogExt)] else [])
    + (if Contains(entry, ArchiveExt) && withArchives then [RemoveFirst(entry, ArchiveExt)] else [])
  }

  /** The names `list(includeCompressedLogs)` pushes, entry by entry, for a directory
      listing in the given order. */
  function Listed(entries: seq<string>, withArchives: bool): seq<string>
  {
    if entries == [] then []
    else Listed(entries[..|entries| - 1], withArchives) + ListedEntry(entries[|entries| - 1], withArchives)
  }

  /** One iteration of the listing loop: push the entry's `.log` name and,
      when archives are wanted, its `.gz.b64` name. */
  method PushNames(names: seq<string>, fileName: string, withArchives: bool) returns (r: seq<string>)
    ensures r == names + ListedEntry(fileName, withArchives)
  {
    r := names;
    if Contains(fileName, LogExt) {
      r := r + [RemoveFirst(fileName, LogExt)];
    }
    if Contains(fileName, ArchiveExt) && withArchives {
      r := r + [RemoveFirst(fileName, ArchiveExt)];
    }
  }

  // ---------------------------------------------------------------------
  // The store

  class Logs {
    var files: Files
    const encode: string -> string
    const decode: string -> Option<string>

    ghost predicate Valid()
    {
      Codec(encode, decode)
    }

    constructor (initial: Files, encode: string -> string, decode: string -> Option<string>)
      requires Codec(encode, decode)
      ensures Valid()
      ensures files == initial && this.encode == encode && this.decode == decode
    {
      files := initial;
      this.encode := encode;
      this.decode := decode;
    }

    method Append(file: string, str: string)
      modifies this
      ensures files == Appended(old(files), file, str)
    {
      var name := file + LogExt;
      var current := if name in files then files[name] else "";
      files := files[name := current + str + "\n"];
    }

    /** `list(includeCompressedLogs)`: walk the directory entries, pushing each
        `.log` name with `.log` removed and, when asked, each `.gz.b64` name
        with that removed. A directory that cannot be read yields an error. */
    method List(withArchives: bool, readdirFails: bool) returns (err: bool, names: seq<string>)
      ensures err == readdirFails
      ensures err ==> names == []
      ensures !err ==> exists entries :: Enumerates(entries, files.Keys) && names == Listed(entries, withArchives)
    {
      if readdirFails {
        return true, [];
      }
      err := false;
      names := [];
      ghost var entries: seq<string> := [];
      var pending := files.Keys;
      while pending != {}
        invariant pending <= files.Keys
        invariant forall x :: x in entries <==> x in files.Keys && x !in pending
        invariant forall i, j :: 0 <= i < j < |entries| ==> entries[i] != entries[j]
        invariant names == Listed(entries, withArchives)
        decreases |pending|
      {
        var fileName :| fileName in pending;
        names := PushNames(names, fileName, withArchives);
        assert (entries + [fileName])[..|entries|] == entries;
        entries := entries + [fileName];
        pending := pending - {fileName};
      }
      assert Enumerates(entries, files.Keys);
    }

    method Compress(logId: string, newFileId: string) returns (err: bool)
      modifies this
      ensures FsResult(err, files) == Compressed(old(files), logId, newFileId, encode)
    {
      var src := logId + LogExt;
      var dst := newFileId + ArchiveExt;
      if src !in files {
        return true;
      }
      var input := files[src];
      if input == "" {
        return false;
      }
      if dst in files {
        return true;
      }
      files := files[dst := encode(input)];
      err := false;
    }

    method Decompress(fileId: string) returns (r: Restored)
      ensures r == Decompressed(files, fileId, decode)
    {
      var name := fileId + ArchiveExt;
      if name !in files || files[name] == "" {
        r := if name in files then NoData else Failed;
        return;
      }
      var inflated := decode(files[name]);
      r := if inflated.Some? then Text(inflated.value) else Failed;
    }

    method Truncate(logId: string) returns (err: bool)
      modifies this
      ensures FsResult(err, files) == Truncated(old(files), logId)
    {
      var name := logId + LogExt;
      if name in files {
        files := files[name := ""];
        err := false;
      } else {
        err := true;
      }
    }
  }

  // ---------------------------------------------------------------------
  // Properties

  /** `append` leaves `file.log` holding the old contents (none if it did not
      exist) followed by `str` and a newline, and touches nothing else. */
  lemma AppendExtends(files: Files, file: string, str: string)
    ensures var r := Appended(files, file, str);
      && r.Keys == files.Keys + {file + LogExt}
      && r[file + LogExt] == (if file + LogExt in files then files[file + LogExt] else "") + str + "\n"
      && forall f :: f in files && f != file + LogExt ==> r[f] == files[f]
  {
  }

  /** An existing archive is never overwritten: everything stays as it was,
      and an error is reported unless the source was missing-free and empty. */
  lemma CompressRefusesExistingArchive(files: Files, logId: string, newFileId: string,
                                       encode: string -> string)
    requires newFileId + ArchiveExt in files
    ensures Compressed(files, logId, newFileId, encode).files == files
    ensures Compressed(files, logId, newFileId, encode).err <==>
            (logId + LogExt !in files || files[logId + LogExt] != "")
  {
  }

  /** An empty or missing source creates no archive; only a missing one is
      reported as an error. */
  lemma CompressOfEmptySource(files: Files, logId: string, newFileId: string,
                              encode: string -> string)
    requires logId + LogExt !in files || files[logId + LogExt] == ""
    ensures Compressed(files, logId, newFileId, encode).files == files
    ensures Compressed(files, logId, newFileId, encode).err <==> logId + LogExt !in files
  {
  }

  /** `compress` never changes or removes an existing file, and adds at most
      the one archive; on success with a non-empty source it adds exactly
      that archive. */
  lemma CompressAddsOneArchive(files: Files, logId: string, newFileId: string,
                               encode: string -> string)
    ensures var r := Compressed(files, logId, newFileId, encode);
      && (forall f :: f in files ==> f in r.files && r.files[f] == files[f])
      && r.files.Keys - files.Keys <= {newFileId + ArchiveExt}
      && (r.files.Keys - files.Keys == {newFileId + ArchiveExt} <==>
            !r.err && logId + LogExt in files && files[logId + LogExt] != "")
  {
    ExtensionsDiffer(logId, newFileId);
  }

  /** Decompressing the archive written by `compress` gives back the source
      log's text. */
  lemma DecompressInvertsCompress(files: Files, logId: string, newFileId: string,
                                  encode: string -> string, decode: string -> Option<string>)
    requires Codec(encode, decode)
    requires !Compressed(files, logId, newFileId, encode).err
    requires logId + LogExt in files && files[logId + LogExt] != ""
    ensures Decompressed(Compressed(files, logId, newFileId, encode).files, newFileId, decode)
            == Text(files[logId + LogExt])
  {
    var s := files[logId + LogExt];
    assert decode(encode(s)) == Some(s) && encode(s) != "";
  }

  /** `truncate` empties exactly `logId.log` and fails only when it is
      missing. */
  lemma TruncateEmpties(files: Files, logId: string)
    ensures var r := Truncated(files, logId);
      && (r.err <==> logId + LogExt !in files)
      && (!r.err ==> r.files[logId + LogExt] == "" && r.files.Keys == files.Keys)
      && forall f :: f in files && f != logId + LogExt ==> r.files[f] == files[f]
  {
  }

  /** Which names a listing contains: exactly those some entry lists as. */
  lemma {:induction false} ListedMembers(entries: seq<string>, withArchives: bool, name: string)
    ensures name in Listed(entries, withArchives) <==>
            exists i :: 0 <= i < |entries| && ListsAs(entries[i], withArchives, name)
  {
    if entries != [] {
      var init := entries[..|entries| - 1];
      var last := entries[|entries| - 1];
      ListedMembers(init, withArchives, name);
      assert name in ListedEntry(last, withArchives) <==> ListsAs(last, withArchives, name);
      if name in Listed(entries, withArchives) {
        if name in Listed(init, withArchives) {
          var i :| 0 <= i < |init| && ListsAs(init[i], withArchives, name);
          assert entries[i] == init[i];
        } else {
          assert ListsAs(entries[|entries| - 1], withArchives, name);
        }
      }
      if exists i :: 0 <= i < |entries| && ListsAs(entries[i], withArchives, name) {
        var i :| 0 <= i < |entries| && ListsAs(entries[i], withArchives, name);
        if i < |entries| - 1 {
          assert init[i] == entries[i];
        }
      }
    }
  }

  /** A log written by `append(id, ...)` is listed by `list(false)` under
      `id`, whatever the directory order, provided `id` itself does not
      contain `.log`. */
  lemma AppendedLogIsListed(files: Files, id: string, str: string, entries: seq<string>)
    requires !Contains(id, LogExt)
    requires Enumerates(entries, Appended(files, id, str).Keys)
    ensures id in Listed(entries, false)
  {
    FirstLogIsSuffix(id);
    var e := id + LogExt;
    assert e in entries;
    var i :| 0 <= i < |entries| && entries[i] == e;
    assert ListsAs(entries[i], false, id);
    ListedMembers(entries, false, id);
  }

  /** Archives appear in a listing only when asked for: without `includeCompressedLogs`
      every listed name comes from an entry containing `.log`. */
  lemma ArchivesOnlyWhenIncluded(entries: seq<string>, name: string)
    requires name in Listed(entries, false)
    ensures exists i :: 0 <= i < |entries| && Contains(entries[i], LogExt) && name == RemoveFirst(entries[i], LogExt)
  {
    ListedMembers(entries, false, name);
    var i :| 0 <= i < |entries| && ListsAs(entries[i], false, name);
    assert Contains(entries[i], LogExt) && name == RemoveFirst(entries[i], LogExt);
  }
}
