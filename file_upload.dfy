/** The upload library: options and their defaults, the size and type check,
    file names and local URLs, and the accumulation of multipart text fields
    and files into the upload result. */
module FileUpload {
  import opened Wrappers
  import opened Text
  import opened Values

  // ---- options ----

  /** The upload options; `None` is a key the caller left out. */
  datatype UploadOptions = UploadOptions(
    maxFileSize: Option<int>,
    allowedMimeTypes: Option<seq<string>>,
    destination: Option<string>,
    useCloudinary: Option<bool>,
    cloudinaryFolder: Option<string>,
    pathStructure: Option<string>)

  const MiB: int := 1024 * 1024

  const DefaultMimeTypes: seq<string> := ["image/jpeg", "image/png", "image/webp", "image/gif"]

  const DefaultOptions: UploadOptions :=
    UploadOptions(Some(10 * MiB), Some(DefaultMimeTypes), Some("uploads"), Some(true), Some("gamehigame"), None)

  /** No option given. */
  const NoOptions: UploadOptions := UploadOptions(None, None, None, None, None, None)

  function Pick<T>(d: Option<T>, o: Option<T>): Option<T> {
    if o.Some? then o else d
  }

  /** `{ ...defaults, ...options }`: each option the caller gives replaces the default. */
  function Merge(d: UploadOptions, o: UploadOptions): (r: UploadOptions)
    ensures r.maxFileSize == (if o.maxFileSize.Some? then o.maxFileSize else d.maxFileSize)
    ensures r.allowedMimeTypes == (if o.allowedMimeTypes.Some? then o.allowedMimeTypes else d.allowedMimeTypes)
    ensures r.destination == (if o.destination.Some? then o.destination else d.destination)
    ensures r.useCloudinary == (if o.useCloudinary.Some? then o.useCloudinary else d.useCloudinary)
    ensures r.cloudinaryFolder == (if o.cloudinaryFolder.Some? then o.cloudinaryFolder else d.cloudinaryFolder)
    ensures r.pathStructure == (if o.pathStructure.Some? then o.pathStructure else d.pathStructure)
  {
    UploadOptions(Pick(d.maxFileSize, o.maxFileSize), Pick(d.allowedMimeTypes, o.allowedMimeTypes),
      Pick(d.destination, o.destination), Pick(d.useCloudinary, o.useCloudinary),
      Pick(d.cloudinaryFolder, o.cloudinaryFolder), Pick(d.pathStructure, o.pathStructure))
  }

  /** Merging with no options gives the defaults, and merging the same
      options twice changes nothing more. */
  lemma MergeLaws(d: UploadOptions, o: UploadOptions)
    ensures Merge(d, NoOptions) == d
    ensures Merge(Merge(d, o), o) == Merge(d, o)
    ensures Merge(d, o) == o <==>
      ((o.maxFileSize.Some? || d.maxFileSize.None?) && (o.allowedMimeTypes.Some? || d.allowedMimeTypes.None?)
       && (o.destination.Some? || d.destination.None?) && (o.useCloudinary.Some? || d.useCloudinary.None?)
       && (o.cloudinaryFolder.Some? || d.cloudinaryFolder.None?) && (o.pathStructure.Some? || d.pathStructure.None?))
  {
  }

  // ---- validation ----

  /** `options.maxFileSize || 10 MiB`: an unset or zero limit means the default. */
  function SizeLimit(o: UploadOptions): (n: int)
    ensures o.maxFileSize.Some? && o.maxFileSize.value != 0 ==> n == o.maxFileSize.value
    ensures o.maxFileSize.None? || o.maxFileSize.value == 0 ==> n == 10 * MiB
  {
    if o.maxFileSize.Some? && o.maxFileSize.value != 0 then o.maxFileSize.value else 10 * MiB
  }

  /** `options.allowedMimeTypes || defaults`: a given list, even an empty one, is used as is. */
  function AllowedTypes(o: UploadOptions): (l: seq<string>)
    ensures o.allowedMimeTypes.Some? ==> l == o.allowedMimeTypes.value
    ensures o.allowedMimeTypes.None? ==> l == DefaultMimeTypes
  {
    if o.allowedMimeTypes.Some? then o.allowedMimeTypes.value else DefaultMimeTypes
  }

  /** `validateFile`: first the size, then the type. */
  function ValidateFile(f: FileInfo, o: UploadOptions): (r: Result<FileInfo, Error>)
    ensures r.Ok? <==> f.size <= SizeLimit(o) && f.mimetype in AllowedTypes(o)
    ensures r.Ok? ==> r.value == f
    ensures f.size > SizeLimit(o) ==> r == Err(Invalid("File " + f.filename + " exceeds maximum size"))
  {
    if f.size > SizeLimit(o) then Err(Invalid("File " + f.filename + " exceeds maximum size"))
    else if f.mimetype !in AllowedTypes(o) then Err(Invalid("File type " + f.mimetype + " is not allowed"))
    else Ok(f)
  }

  /** With the default options a file of exactly 10 MiB passes and one byte
      more fails; a limit of 0 is no limit of 0 bytes but the default. */
  lemma SizeBoundary(f: FileInfo)
    requires f.mimetype == "image/png"
    ensures ValidateFile(f.(size := 10 * MiB), DefaultOptions).Ok?
    ensures ValidateFile(f.(size := 10 * MiB + 1), DefaultOptions).Err?
    ensures ValidateFile(f.(size := 10 * MiB), DefaultOptions.(maxFileSize := Some(0))).Ok?
  {
    assert "image/png" in DefaultMimeTypes;
  }

  // ---- names and URLs ----

  /** The path without its trailing slashes. */
  function StripTrailingSlashes(s: string): (r: string)
    ensures |r| <= |s| && r == s[..|r|] && (r == [] || r[|r| - 1] != '/')
  {
    if s != [] && s[|s| - 1] == '/' then StripTrailingSlashes(s[..|s| - 1]) else s
  }

  /** The last component of a POSIX path. */
  function Basename(s: string): (r: string)
    ensures forall i :: 0 <= i < |r| ==> r[i] != '/'
  {
    var t := StripTrailingSlashes(s);
    var k := LastIndexOf(t, '/');
    t[k + 1..]
  }

  /** `path.extname` under POSIX rules: from the last `.` of the last
      component to its end, unless that dot starts the component or the
      component is `..`. */
  function Extname(s: string): (r: string)
    ensures r == [] || (r[0] == '.' && forall i :: 1 <= i < |r| ==> r[i] != '.')
    ensures forall i :: 0 <= i < |r| ==> r[i] != '/'
  {
    var b := Basename(s);
    var d := LastIndexOf(b, '.');
    if d <= 0 || b == ".." then "" else b[d..]
  }

  /** `generateUniqueFilename`: a fresh identifier followed by the extension. */
  function UniqueFilename(name: string, uuid: string): (r: string)
    ensures StartsWith(r, uuid) && EndsWith(r, Extname(name))
  {
    uuid + Extname(name)
  }

  /** The generated name has the same extension as the original, for any
      identifier that is non-empty and has no `.` or `/` (a UUID). */
  lemma UniqueFilenameKeepsExtension(name: string, uuid: string)
    requires uuid != [] && forall i :: 0 <= i < |uuid| ==> uuid[i] != '.' && uuid[i] != '/'
    ensures Extname(UniqueFilename(name, uuid)) == Extname(name)
  {
    var e := Extname(name);
    var u := uuid + e;
    forall i | 0 <= i < |u| ensures u[i] != '/' {
      if i < |uuid| { assert u[i] == uuid[i]; } else { assert u[i] == e[i - |uuid|]; }
    }
    SlashFreeBasename(u);
    if e == [] {
      assert u == uuid;
      assert LastIndexOf(u, '.') == -1;
    } else {
      assert u[|uuid|] == '.';
      forall i | |uuid| < i < |u| ensures u[i] != '.' {
        assert u[i] == e[i - |uuid|];
      }
      LastIndexOfIs(u, '.', |uuid|);
      assert u != ".." by { assert u[0] == uuid[0]; }
      assert u[|uuid|..] == e;
    }
  }

  /** A name with no `/` is its own last component. */
  lemma SlashFreeBasename(u: string)
    requires u != [] && forall i :: 0 <= i < |u| ==> u[i] != '/'
    ensures Basename(u) == u
  {
    assert u[|u| - 1] != '/';
    assert StripTrailingSlashes(u) == u;
    assert LastIndexOf(u, '/') == -1;
  }

  /** The last occurrence of c is at k when it is there and nowhere after. */
  lemma LastIndexOfIs(s: string, c: char, k: int)
    requires 0 <= k < |s| && s[k] == c
    requires forall i :: k < i < |s| ==> s[i] != c
    ensures LastIndexOf(s, c) == k
  {
  }

  /** The path of a stored file relative to the upload root:
      `path.join(pathStructure, filename)` when there is a path structure. */
  function RelPath(pathStructure: Option<string>, filename: string): (r: string)
    ensures EndsWith(r, filename)
  {
    var r := if pathStructure.Some? && pathStructure.value != "" then pathStructure.value + "/" + filename else filename;
    assert r[|r| - |filename|..] == filename;
    r
  }

  /** The local public URL: `/uploads/` and the relative path with every
      backslash turned into a slash. */
  function LocalPublicUrl(pathStructure: Option<string>, filename: string): (r: string)
    ensures StartsWith(r, "/uploads/")
    ensures forall i :: 0 <= i < |r| ==> r[i] != '\\'
    ensures (pathStructure.None? || pathStructure.value == "") ==> r == "/uploads/" + ReplaceChar(filename, '\\', '/')
  {
    var u := ReplaceChar(RelPath(pathStructure, filename), '\\', '/');
    var r := "/uploads/" + u;
    assert forall i :: 9 <= i < |r| ==> r[i] == u[i - 9];
    r
  }

  /** Replacing a character leaves a suffix without it unchanged. */
  lemma ReplaceKeepsSuffix(t: string, f: string, a: char, b: char)
    requires EndsWith(t, f) && forall i :: 0 <= i < |f| ==> f[i] != a
    ensures EndsWith(ReplaceChar(t, a, b), f)
  {
    var u := ReplaceChar(t, a, b);
    forall i | 0 <= i < |f| ensures u[|u| - |f| + i] == f[i] {
      assert t[|t| - |f| + i] == t[|t| - |f|..][i];
    }
  }

  lemma EndsWithAfterPrefix(p: string, u: string, f: string)
    requires EndsWith(u, f)
    ensures EndsWith(p + u, f)
  {
    assert (p + u)[|p + u| - |f|..] == u[|u| - |f|..];
  }

  /** A file name without backslashes appears at the end of its local URL unchanged. */
  lemma LocalUrlEndsWithName(pathStructure: Option<string>, filename: string)
    requires forall i :: 0 <= i < |filename| ==> filename[i] != '\\'
    ensures EndsWith(LocalPublicUrl(pathStructure, filename), filename)
  {
    ReplaceKeepsSuffix(RelPath(pathStructure, filename), filename, '\\', '/');
    EndsWithAfterPrefix("/uploads/", ReplaceChar(RelPath(pathStructure, filename), '\\', '/'), filename);
  }

  /** The record of an uploaded file: the generated name, the byte count and
      the URL, local or the one the remote store returned. */
  function Uploaded(fieldname: string, original: string, encoding: string, mimetype: string, size: nat,
                    uuid: string, o: UploadOptions, remoteUrl: string): (f: FileInfo)
    ensures f.fieldname == fieldname && f.originalFilename == original && f.mimetype == mimetype && f.size == size
    ensures f.filename == UniqueFilename(original, uuid)
    ensures o.useCloudinary != Some(true) ==> f.publicUrl == LocalPublicUrl(o.pathStructure, f.filename)
  {
    var name := UniqueFilename(original, uuid);
    FileInfo(fieldname, name, encoding, mimetype, size, original,
      if o.useCloudinary == Some(true) then remoteUrl else LocalPublicUrl(o.pathStructure, name))
  }

  // ---- text fields ----

  /** The value `field` leaves under a name: absent, a string, or a list. */
  predicate IsArrayName(name: string) { EndsWith(name, "[]") }

  function BaseName(name: string): string
    requires IsArrayName(name)
  {
    name[..|name| - 2]
  }

  function Strs(vals: seq<string>): (r: seq<Value>)
    ensures |r| == |vals| && forall i :: 0 <= i < |vals| ==> r[i] == Str(vals[i])
  {
    seq(|vals|, i requires 0 <= i < |vals| => Str(vals[i]))
  }

  /** What a stored value becomes when a second value arrives: a list stays, a scalar is wrapped. */
  function AsList(v: Value): seq<Value> {
    if v.Arr? then v.items else [v]
  }

  /** One `field` event. A name `x[]` appends to the list under `x`,
      starting one when `x` is absent or falsy; if `x` holds a truthy
      non-list the push throws. Any other name stores its first value as is
      and turns into a list when it repeats. */
  function AddField(fields: map<string, Value>, name: string, val: string): (r: Result<map<string, Value>, Error>)
    ensures r.Err? <==> IsArrayName(name) && BaseName(name) in fields
                        && Truthy(fields[BaseName(name)]) && !fields[BaseName(name)].Arr?
    ensures r.Ok? ==> var key := if IsArrayName(name) then BaseName(name) else name;
      && r.value.Keys == fields.Keys + {key}
      && (forall k :: k in fields && k != key ==> r.value[k] == fields[k])
  {
    if IsArrayName(name) then
      var base := BaseName(name);
      var cur := if base in fields && Truthy(fields[base]) then fields[base] else Arr([]);
      if cur.Arr? then Ok(fields[base := Arr(cur.items + [Str(val)])])
      else Err(Unexpected("fields[baseFieldName].push is not a function"))
    else if name in fields then Ok(fields[name := Arr(AsList(fields[name]) + [Str(val)])])
    else Ok(fields[name := Str(val)])
  }

  /** A multipart text field as it arrives. */
  datatype FieldEvent = FieldEvent(name: string, value: string)

  /** The `field` events in arrival order; the first failure ends the upload. */
  function Collect(fields: map<string, Value>, events: seq<FieldEvent>): Result<map<string, Value>, Error>
    decreases |events|
  {
    if events == [] then Ok(fields)
    else match AddField(fields, events[0].name, events[0].value)
      case Err(e) => Err(e)
      case Ok(f) => Collect(f, events[1..])
  }

  function ArrayEvents(base: string, vals: seq<string>): (r: seq<FieldEvent>)
    ensures |r| == |vals| && forall i :: 0 <= i < |vals| ==> r[i] == FieldEvent(base + "[]", vals[i])
  {
    seq(|vals|, i requires 0 <= i < |vals| => FieldEvent(base + "[]", vals[i]))
  }

  function PlainEvents(name: string, vals: seq<string>): (r: seq<FieldEvent>)
    ensures |r| == |vals| && forall i :: 0 <= i < |vals| ==> r[i] == FieldEvent(name, vals[i])
  {
    seq(|vals|, i requires 0 <= i < |vals| => FieldEvent(name, vals[i]))
  }

  lemma BaseOfArrayName(base: string)
    ensures IsArrayName(base + "[]") && BaseName(base + "[]") == base
  {
    assert (base + "[]")[|base|..] == "[]";
    assert (base + "[]")[..|base|] == base;
  }

  /** Values sent as `x[]` are appended in arrival order to the list under
      `x`, after the entries already there. */
  lemma {:induction false} ArrayFieldAppends(fields: map<string, Value>, base: string, vals: seq<string>)
    requires base in fields && fields[base].Arr?
    ensures Collect(fields, ArrayEvents(base, vals)) == Ok(fields[base := Arr(fields[base].items + Strs(vals))])
    decreases |vals|
  {
    if vals != [] {
      var next := fields[base := Arr(fields[base].items + [Str(vals[0])])];
      ArrayFirstEvent(fields, base, vals);
      ArrayFieldAppends(next, base, vals[1..]);
      ArrayListGrows(fields, base, vals);
    } else {
      assert Strs(vals) == [];
      assert fields[base].items + Strs(vals) == fields[base].items;
      assert fields[base := Arr(fields[base].items + Strs(vals))] == fields;
    }
  }

  /** The first of the `x[]` values, handled. */
  lemma ArrayFirstEvent(fields: map<string, Value>, base: string, vals: seq<string>)
    requires base in fields && fields[base].Arr? && vals != []
    ensures Collect(fields, ArrayEvents(base, vals))
            == Collect(fields[base := Arr(fields[base].items + [Str(vals[0])])], ArrayEvents(base, vals[1..]))
  {
    BaseOfArrayName(base);
    var ev := ArrayEvents(base, vals);
    assert AddField(fields, base + "[]", vals[0]) == Ok(fields[base := Arr(fields[base].items + [Str(vals[0])])]);
    assert ev[0] == FieldEvent(base + "[]", vals[0]);
    CollectFirst(fields, ev);
    assert ev[1..] == ArrayEvents(base, vals[1..]);
  }

  lemma ArrayListGrows(fields: map<string, Value>, base: string, vals: seq<string>)
    requires base in fields && fields[base].Arr? && vals != []
    ensures var next := fields[base := Arr(fields[base].items + [Str(vals[0])])];
      next[base := Arr(next[base].items + Strs(vals[1..]))] == fields[base := Arr(fields[base].items + Strs(vals))]
  {
    StrsFirst(vals);
    var list := fields[base].items;
    assert (list + [Str(vals[0])]) + Strs(vals[1..]) == list + Strs(vals);
  }

  /** Starting from nothing under `x`, the `x[]` values form a list in arrival order. */
  lemma ArrayFieldCollects(fields: map<string, Value>, base: string, vals: seq<string>)
    requires base !in fields && vals != []
    ensures Collect(fields, ArrayEvents(base, vals)) == Ok(fields[base := Arr(Strs(vals))])
  {
    var start := fields[base := Arr([])];
    var list := Strs(vals);
    ArrayStartsList(fields, base, vals);
    ArrayFieldAppends(start, base, vals);
    assert start[base].items + list == list;
    assert start[base := Arr(list)] == fields[base := Arr(list)];
  }

  /** With nothing under `x`, the first `x[]` value behaves as if `x` held an empty list. */
  lemma ArrayStartsList(fields: map<string, Value>, base: string, vals: seq<string>)
    requires base !in fields && vals != []
    ensures Collect(fields, ArrayEvents(base, vals)) == Collect(fields[base := Arr([])], ArrayEvents(base, vals))
  {
    BaseOfArrayName(base);
    var ev := ArrayEvents(base, vals);
    var start := fields[base := Arr([])];
    assert ev[0] == FieldEvent(base + "[]", vals[0]);
    var first := Arr([] + [Str(vals[0])]);
    assert AddField(fields, base + "[]", vals[0]) == Ok(fields[base := first]);
    assert AddField(start, base + "[]", vals[0]) == Ok(start[base := first]);
    assert start[base := first] == fields[base := first];
    CollectFirst(fields, ev);
    CollectFirst(start, ev);
  }

  /** A repeated plain name appends to what it already holds, wrapped as a list. */
  lemma {:induction false} PlainFieldAppends(fields: map<string, Value>, name: string, vals: seq<string>)
    requires !IsArrayName(name) && name in fields && vals != []
    ensures Collect(fields, PlainEvents(name, vals)) == Ok(fields[name := Arr(AsList(fields[name]) + Strs(vals))])
    decreases |vals|
  {
    var next := fields[name := Arr(AsList(fields[name]) + [Str(vals[0])])];
    PlainFirstEvent(fields, name, vals);
    if |vals| == 1 {
      assert PlainEvents(name, vals[1..]) == [];
      assert vals == [vals[0]];
      PlainLastValue(fields, name, vals[0]);
    } else {
      PlainFieldAppends(next, name, vals[1..]);
      PlainListGrows(fields, name, vals);
    }
  }

  /** The first of the repeated values, handled. */
  lemma PlainFirstEvent(fields: map<string, Value>, name: string, vals: seq<string>)
    requires !IsArrayName(name) && name in fields && vals != []
    ensures Collect(fields, PlainEvents(name, vals))
            == Collect(fields[name := Arr(AsList(fields[name]) + [Str(vals[0])])], PlainEvents(name, vals[1..]))
  {
    var ev := PlainEvents(name, vals);
    PlainStep(fields, name, vals[0]);
    assert ev[0] == FieldEvent(name, vals[0]);
    CollectFirst(fields, ev);
    assert ev[1..] == PlainEvents(name, vals[1..]);
  }

  lemma PlainLastValue(fields: map<string, Value>, name: string, val: string)
    requires name in fields
    ensures Strs([val]) == [Str(val)]
    ensures Collect(fields[name := Arr(AsList(fields[name]) + [Str(val)])], [])
            == Ok(fields[name := Arr(AsList(fields[name]) + Strs([val]))])
  {
  }

  lemma PlainListGrows(fields: map<string, Value>, name: string, vals: seq<string>)
    requires name in fields && vals != []
    ensures var next := fields[name := Arr(AsList(fields[name]) + [Str(vals[0])])];
      next[name := Arr(AsList(next[name]) + Strs(vals[1..]))] == fields[name := Arr(AsList(fields[name]) + Strs(vals))]
  {
    StrsFirst(vals);
    var list := AsList(fields[name]);
    assert (list + [Str(vals[0])]) + Strs(vals[1..]) == list + Strs(vals);
  }

  /** A repeated plain name wraps what it holds into a list and appends. */
  lemma PlainStep(fields: map<string, Value>, name: string, val: string)
    requires !IsArrayName(name) && name in fields
    ensures AddField(fields, name, val) == Ok(fields[name := Arr(AsList(fields[name]) + [Str(val)])])
  {
  }

  /** The first event of a run, when it succeeds, feeds the rest. */
  lemma CollectFirst(fields: map<string, Value>, events: seq<FieldEvent>)
    requires events != [] && AddField(fields, events[0].name, events[0].value).Ok?
    ensures Collect(fields, events) == Collect(AddField(fields, events[0].name, events[0].value).value, events[1..])
  {
  }

  lemma StrsFirst(vals: seq<string>)
    requires vals != []
    ensures Strs(vals) == [Str(vals[0])] + Strs(vals[1..])
  {
  }

  /** A plain name sent once is stored as the value itself; sent several
      times it becomes the list of its values in arrival order. */
  lemma RepeatedFieldPromotes(fields: map<string, Value>, name: string, vals: seq<string>)
    requires !IsArrayName(name) && name !in fields && vals != []
    ensures Collect(fields, PlainEvents(name, vals)) == Ok(fields[name := if |vals| == 1 then Str(vals[0]) else Arr(Strs(vals))])
  {
    var next := fields[name := Str(vals[0])];
    assert AddField(fields, name, vals[0]) == Ok(next);
    assert PlainEvents(name, vals)[0] == FieldEvent(name, vals[0]);
    assert PlainEvents(name, vals)[1..] == PlainEvents(name, vals[1..]);
    assert Collect(fields, PlainEvents(name, vals)) == Collect(next, PlainEvents(name, vals[1..]));
    if |vals| > 1 {
      PlainFieldAppends(next, name, vals[1..]);
      assert [Str(vals[0])] + Strs(vals[1..]) == Strs(vals);
      assert next[name := Arr(AsList(next[name]) + Strs(vals[1..]))] == fields[name := Arr(Strs(vals))];
    } else {
      assert PlainEvents(name, vals[1..]) == [];
    }
  }

  /** A non-empty plain value followed by `x[]` makes the upload fail; an
      empty one is silently replaced by the list. */
  lemma ScalarThenArrayName(fields: map<string, Value>, base: string, s: string, val: string)
    requires !IsArrayName(base) && base !in fields
    ensures s != "" ==> Collect(fields, [FieldEvent(base, s), FieldEvent(base + "[]", val)]).Err?
    ensures s == "" ==> Collect(fields, [FieldEvent(base, s), FieldEvent(base + "[]", val)]) == Ok(fields[base := Arr([Str(val)])])
  {
    BaseOfArrayName(base);
    var e := [FieldEvent(base, s), FieldEvent(base + "[]", val)];
    var next := fields[base := Str(s)];
    assert e[1..] == [FieldEvent(base + "[]", val)];
    assert e[1..][1..] == [];
    assert AddField(fields, base, s) == Ok(next);
    assert Collect(fields, e) == Collect(next, e[1..]);
    if s == "" {
      assert [] + [Str(val)] == [Str(val)];
      assert AddField(next, base + "[]", val) == Ok(next[base := Arr([Str(val)])]);
      assert Collect(next, e[1..]) == Collect(next[base := Arr([Str(val)])], []);
      assert next[base := Arr([Str(val)])] == fields[base := Arr([Str(val)])];
    }
  }

  // ---- the upload ----

  /** One upload in progress: the merged options, the files accepted so far,
      the fields so far, and the first failure, if any. */
  class Upload {
    const options: UploadOptions
    var files: seq<FileInfo>
    var fields: map<string, Value>
    var failure: Option<Error>

    constructor (o: UploadOptions)
      ensures options == Merge(DefaultOptions, o)
      ensures files == [] && fields == map[] && failure == None
    {
      options := Merge(DefaultOptions, o);
      files := [];
      fields := map[];
      failure := None;
    }

    /** The `field` handler; after a failure nothing more is recorded. */
    method OnField(name: string, val: string)
      modifies this
      ensures old(failure).Some? ==> fields == old(fields) && failure == old(failure)
      ensures old(failure).None? ==> match AddField(old(fields), name, val)
        case Ok(f) => fields == f && failure == None
        case Err(e) => fields == old(fields) && failure == Some(e)
      ensures files == old(files)
    {
      if failure.Some? {
        return;
      }
      if IsArrayName(name) {
        var base := BaseName(name);
        var cur := if base in fields && Truthy(fields[base]) then fields[base] else Arr([]);
        if !cur.Arr? {
          failure := Some(Unexpected("fields[baseFieldName].push is not a function"));
          return;
        }
        fields := fields[base := Arr(cur.items + [Str(val)])];
      } else if name in fields {
        if !fields[name].Arr? {
          fields := fields[name := Arr([fields[name]])];
        }
        fields := fields[name := Arr(fields[name].items + [Str(val)])];
      } else {
        fields := fields[name := Str(val)];
      }
    }

    /** The `end` of a file: the record is built, checked, and pushed. */
    method OnFile(fieldname: string, original: string, encoding: string, mimetype: string, size: nat,
                  uuid: string, remoteUrl: string)
      modifies this
      ensures var f := Uploaded(fieldname, original, encoding, mimetype, size, uuid, options, remoteUrl);
        if old(failure).None? && ValidateFile(f, options).Ok? then files == old(files) + [f] && failure == None
        else files == old(files) && failure == (if old(failure).Some? then old(failure) else Some(ValidateFile(f, options).error))
      ensures fields == old(fields)
    {
      var f := Uploaded(fieldname, original, encoding, mimetype, size, uuid, options, remoteUrl);
      var v := ValidateFile(f, options);
      if failure.None? {
        if v.Ok? {
          files := files + [f];
        } else {
          failure := Some(v.error);
        }
      }
    }

    /** The `finish` event: the files and fields, or the first failure. */
    function Finish(): (r: Result<(seq<FileInfo>, map<string, Value>), Error>)
      reads this
      ensures r.Ok? <==> failure.None?
      ensures r.Ok? ==> r.value == (files, fields)
    {
      if failure.Some? then Err(failure.value) else Ok((files, fields))
    }
  }
}
