/** The upload hook: how the fields and files of a multipart request are
    merged into the request body, grouped, mapped and combined. `JSON.parse`
    is the parameter `parse`, which yields `None` where it would throw. */
module UploadHook {
  import opened Wrappers
  import opened Text
  import opened Values
  import opened FileUpload

  // ---- parseArrayField ----

  /** `parseArrayField`: a string is parsed (a parsed non-list is wrapped, an
      unparseable string is kept as the only element), a list is returned as
      it is, any other truthy value is wrapped and a falsy one gives `[]`. */
  function ParseArrayField(field: Value, parse: string -> Option<Value>): (r: seq<Value>)
  {
    if field.Str? then
      match parse(field.s)
      case None => [field]
      case Some(p) => if p.Arr? then p.items else [p]
    else if field.Arr? then field.items
    else if Truthy(field) then [field]
    else []
  }

  /** The result is empty exactly for a falsy non-string, an empty list, or a
      string that parses to an empty list. */
  lemma ParseArrayFieldEmpty(field: Value, parse: string -> Option<Value>)
    ensures ParseArrayField(field, parse) == [] <==>
      || (field.Str? && parse(field.s) == Some(Arr([])))
      || field == Arr([])
      || (!field.Str? && !field.Arr? && !Truthy(field))
  {
    if field.Str? && parse(field.s).Some? && parse(field.s).value.Arr? && parse(field.s).value.items == [] {
      assert parse(field.s).value == Arr([]);
    }
  }

  // ---- convertFieldsToJson ----

  /** A value that, trimmed, starts with `{` and ends with `}`, or starts
      with `[` and ends with `]` (one character cannot do both). */
  predicate Bracketed(s: string) {
    var t := Trim(s);
    |t| >= 2 && ((t[0] == '{' && t[|t| - 1] == '}') || (t[0] == '[' && t[|t| - 1] == ']'))
  }

  /** One entry of the loop of `convertFieldsToJson`. A bracketed string is
      replaced by its parse (kept as it is when the parse throws); a string
      under `k[]` is pushed onto the list under `k` (started when `k` is
      absent or falsy; when `k` holds a truthy non-list the push throws and
      the entry is copied under `k[]`); anything else is copied. */
  function ConvertEntry(result: map<string, Value>, key: string, value: Value, parse: string -> Option<Value>): (r: map<string, Value>)
    ensures !value.Str? ==> r == result[key := value]
    ensures value.Str? && !Bracketed(value.s) && !IsArrayName(key) ==> r == result[key := value]
    ensures value.Str? && Bracketed(value.s) ==>
      r == result[key := if parse(value.s).Some? then parse(value.s).value else value]
    ensures value.Str? && !Bracketed(value.s) && IsArrayName(key) ==> r == PushEntry(result, key, value)
  {
    if value.Str? && Bracketed(value.s) then
      match parse(value.s)
      case Some(p) => result[key := p]
      case None => result[key := value]
    else if value.Str? && IsArrayName(key) then PushEntry(result, key, value)
    else result[key := value]
  }

  /** `k[]` pushes onto the list under `k`: a missing or falsy entry starts
      a list, a list is extended, and a truthy non-list makes the push throw,
      after which the value is kept under `k[]` itself. */
  function PushEntry(result: map<string, Value>, key: string, value: Value): (r: map<string, Value>)
    requires IsArrayName(key)
    ensures var base := BaseName(key);
      && (base !in result || !Truthy(result[base]) ==> r == result[base := Arr([value])])
      && (base in result && result[base].Arr? ==> r == result[base := Arr(result[base].items + [value])])
      && (base in result && Truthy(result[base]) && !result[base].Arr? ==> r == result[key := value])
  {
    var base := BaseName(key);
    var cur := if base in result && Truthy(result[base]) then result[base] else Arr([]);
    assert [] + [value] == [value];
    if cur.Arr? then result[base := Arr(cur.items + [value])] else result[key := value]
  }

  /** The keys of an object as `Object.entries` lists them: each once, all of them. */
  predicate EnumerationOf(order: seq<string>, fields: map<string, Value>) {
    && (forall i, j :: 0 <= i < j < |order| ==> order[i] != order[j])
    && (forall i :: 0 <= i < |order| ==> order[i] in fields)
    && (forall k :: k in fields ==> k in order)
  }

  /** The whole loop, over the keys in enumeration order. */
  function ConvertAll(fields: map<string, Value>, order: seq<string>, parse: string -> Option<Value>): map<string, Value>
    requires forall i :: 0 <= i < |order| ==> order[i] in fields
  {
    if order == [] then map[]
    else ConvertEntry(ConvertAll(fields, order[..|order| - 1], parse), order[|order| - 1], fields[order[|order| - 1]], parse)
  }

  /** `convertFieldsToJson`. */
  method ConvertFieldsToJson(fields: map<string, Value>, order: seq<string>, parse: string -> Option<Value>)
    returns (result: map<string, Value>)
    requires EnumerationOf(order, fields)
    ensures result == ConvertAll(fields, order, parse)
  {
    result := map[];
    var i := 0;
    while i < |order|
      invariant 0 <= i <= |order|
      invariant result == ConvertAll(fields, order[..i], parse)
    {
      assert order[..i + 1][..i] == order[..i];
      result := ConvertEntry(result, order[i], fields[order[i]], parse);
      i := i + 1;
    }
    assert order[..|order|] == order;
  }

  /** The fields under the listed keys. */
  function Restrict(fields: map<string, Value>, keys: seq<string>): (r: map<string, Value>)
    requires forall i :: 0 <= i < |keys| ==> keys[i] in fields
    ensures forall k :: k in r <==> k in keys
    ensures forall k :: k in r ==> r[k] == fields[k]
  {
    map k | k in keys :: fields[k]
  }

  lemma {:induction false} ConvertPlainPrefix(fields: map<string, Value>, order: seq<string>, parse: string -> Option<Value>)
    requires forall i :: 0 <= i < |order| ==> order[i] in fields
    requires forall k :: k in fields ==> !IsArrayName(k) && !(fields[k].Str? && Bracketed(fields[k].s))
    ensures ConvertAll(fields, order, parse) == Restrict(fields, order)
  {
    if order != [] {
      var init := order[..|order| - 1];
      ConvertPlainPrefix(fields, init, parse);
      var k := order[|order| - 1];
      assert ConvertAll(fields, order, parse) == Restrict(fields, init)[k := fields[k]];
      assert forall x :: x in order <==> x in init || x == k;
    }
  }

  /** When no key ends in `[]` and no string value is bracketed, conversion
      copies every field unchanged. */
  lemma ConvertKeepsPlainFields(fields: map<string, Value>, order: seq<string>, parse: string -> Option<Value>)
    requires EnumerationOf(order, fields)
    requires forall k :: k in fields ==> !IsArrayName(k) && !(fields[k].Str? && Bracketed(fields[k].s))
    ensures ConvertAll(fields, order, parse) == fields
  {
    ConvertPlainPrefix(fields, order, parse);
  }

  /** The value an entry that is not a push leaves under its own key: a
      bracketed string parsed (kept when the parse throws), anything else as
      it is. */
  function Converted(v: Value, parse: string -> Option<Value>): Value {
    if v.Str? && Bracketed(v.s) && parse(v.s).Some? then parse(v.s).value else v
  }

  /** The entry `key: value` may write the result under `x`: it is `x`
      itself, or a string pushed onto `x` by `x[]`. */
  predicate Writes(key: string, value: Value, x: string) {
    key == x || (IsArrayName(key) && BaseName(key) == x && value.Str? && !Bracketed(value.s))
  }

  /** An entry that does not write `x` leaves the result under `x` alone. */
  lemma EntryFrame(result: map<string, Value>, key: string, value: Value, parse: string -> Option<Value>, x: string)
    requires !Writes(key, value, x)
    ensures var r := ConvertEntry(result, key, value, parse);
      (x in r <==> x in result) && (x in result ==> r[x] == result[x])
  {
  }

  /** The loop after `i + 1` entries is one more entry after `i` entries. */
  lemma ConvertAllStep(fields: map<string, Value>, order: seq<string>, parse: string -> Option<Value>, i: int)
    requires forall j :: 0 <= j < |order| ==> order[j] in fields
    requires 0 <= i < |order|
    ensures ConvertAll(fields, order[..i + 1], parse) ==
      ConvertEntry(ConvertAll(fields, order[..i], parse), order[i], fields[order[i]], parse)
  {
    assert order[..i + 1][..i] == order[..i];
  }

  /** Entries `i` to `k - 1`, none of which writes `x`, leave the result
      under `x` as it was after `i` entries. */
  lemma {:induction false} ConvertFrameTo(fields: map<string, Value>, order: seq<string>, parse: string -> Option<Value>, x: string, i: int, k: int)
    requires forall j :: 0 <= j < |order| ==> order[j] in fields
    requires 0 <= i <= k <= |order|
    requires forall j :: i <= j < k ==> !Writes(order[j], fields[order[j]], x)
    ensures var r := ConvertAll(fields, order[..k], parse);
      var before := ConvertAll(fields, order[..i], parse);
      (x in r <==> x in before) && (x in before ==> r[x] == before[x])
    decreases k
  {
    if i < k {
      ConvertFrameTo(fields, order, parse, x, i, k - 1);
      ConvertAllStep(fields, order, parse, k - 1);
      EntryFrame(ConvertAll(fields, order[..k - 1], parse), order[k - 1], fields[order[k - 1]], parse, x);
    }
  }

  /** Entries that do not write `x` leave the result under `x` as it was. */
  lemma ConvertFrame(fields: map<string, Value>, order: seq<string>, parse: string -> Option<Value>, x: string, i: int)
    requires forall j :: 0 <= j < |order| ==> order[j] in fields
    requires 0 <= i <= |order|
    requires forall j :: i <= j < |order| ==> !Writes(order[j], fields[order[j]], x)
    ensures var r := ConvertAll(fields, order, parse);
      var before := ConvertAll(fields, order[..i], parse);
      (x in r <==> x in before) && (x in before ==> r[x] == before[x])
  {
    ConvertFrameTo(fields, order, parse, x, i, |order|);
    assert order[..|order|] == order;
  }

  /** A key that no entry writes is absent from the result. */
  lemma ConvertNoWriter(fields: map<string, Value>, order: seq<string>, parse: string -> Option<Value>, x: string)
    requires forall j :: 0 <= j < |order| ==> order[j] in fields
    requires forall j :: 0 <= j < |order| ==> !Writes(order[j], fields[order[j]], x)
    ensures x !in ConvertAll(fields, order, parse)
  {
    ConvertFrame(fields, order, parse, x, 0);
  }

  /** The last entry written under its own key decides the result there:
      a bracketed string is parsed (kept when the parse throws), any other
      value is copied. */
  lemma ConvertLastWrite(fields: map<string, Value>, order: seq<string>, parse: string -> Option<Value>, i: int)
    requires forall j :: 0 <= j < |order| ==> order[j] in fields
    requires 0 <= i < |order|
    requires var v := fields[order[i]]; !(IsArrayName(order[i]) && v.Str? && !Bracketed(v.s))
    requires forall j :: i < j < |order| ==> !Writes(order[j], fields[order[j]], order[i])
    ensures var r := ConvertAll(fields, order, parse);
      order[i] in r && r[order[i]] == Converted(fields[order[i]], parse)
  {
    ConvertAllStep(fields, order, parse, i);
    ConvertFrame(fields, order, parse, order[i], i + 1);
  }

  /** The entries that write `b` are the one named `b`, if any, and the
      push from `b[]`. */
  lemma WritersOfBase(fields: map<string, Value>, order: seq<string>, b: string, i: int)
    requires EnumerationOf(order, fields)
    requires 0 <= i < |order| && order[i] == b + "[]"
    ensures forall j :: 0 <= j < |order| && j != i && order[j] != b ==> !Writes(order[j], fields[order[j]], b)
  {
  }

  /** The state of the loop just after the push from `b[]` at position `i`. */
  lemma PushStep(fields: map<string, Value>, order: seq<string>, parse: string -> Option<Value>, b: string, i: int)
    requires EnumerationOf(order, fields)
    requires 0 <= i < |order| && order[i] == b + "[]"
    requires fields[order[i]].Str? && !Bracketed(fields[order[i]].s)
    ensures IsArrayName(order[i]) && BaseName(order[i]) == b
    ensures ConvertAll(fields, order[..i + 1], parse) == PushEntry(ConvertAll(fields, order[..i], parse), order[i], fields[order[i]])
  {
    BaseOfArrayName(b);
    ConvertAllStep(fields, order, parse, i);
  }

  /** `b[]` with no field `b`: the result holds the one-element list under `b`. */
  lemma PushWithoutBase(fields: map<string, Value>, order: seq<string>, parse: string -> Option<Value>, b: string, i: int)
    requires EnumerationOf(order, fields)
    requires b !in fields
    requires 0 <= i < |order| && order[i] == b + "[]"
    requires fields[order[i]].Str? && !Bracketed(fields[order[i]].s)
    requires forall j :: 0 <= j < |order| && j != i ==> !Writes(order[j], fields[order[j]], order[i])
    ensures var r := ConvertAll(fields, order, parse);
      b in r && r[b] == Arr([fields[order[i]]]) && order[i] !in r
  {
    WritersOfBase(fields, order, b, i);
    PushStep(fields, order, parse, b, i);
    ConvertNoWriter(fields, order[..i], parse, b);
    ConvertNoWriter(fields, order[..i], parse, order[i]);
    ConvertFrame(fields, order, parse, b, i + 1);
    ConvertFrame(fields, order, parse, order[i], i + 1);
  }

  /** `b[]` followed by `b`: the later field overwrites the pushed list. */
  lemma PushThenBase(fields: map<string, Value>, order: seq<string>, parse: string -> Option<Value>, b: string, i: int, p: int)
    requires EnumerationOf(order, fields)
    requires !IsArrayName(b)
    requires 0 <= i < p < |order| && order[i] == b + "[]" && order[p] == b
    requires fields[order[i]].Str? && !Bracketed(fields[order[i]].s)
    requires forall j :: 0 <= j < |order| && j != i ==> !Writes(order[j], fields[order[j]], order[i])
    ensures var r := ConvertAll(fields, order, parse);
      b in r && r[b] == Converted(fields[b], parse) && order[i] !in r
  {
    WritersOfBase(fields, order, b, i);
    PushStep(fields, order, parse, b, i);
    ConvertNoWriter(fields, order[..i], parse, b);
    ConvertNoWriter(fields, order[..i], parse, order[i]);
    ConvertFrame(fields, order, parse, order[i], i + 1);
    assert forall j :: p < j < |order| ==> order[j] != b;
    ConvertLastWrite(fields, order, parse, p);
  }

  /** Just before the push from `b[]`, `b` holds its converted value and
      `b[]` is not yet in the result. */
  lemma BaseBeforePush(fields: map<string, Value>, order: seq<string>, parse: string -> Option<Value>, b: string, i: int, p: int)
    requires EnumerationOf(order, fields)
    requires !IsArrayName(b)
    requires 0 <= p < i < |order| && order[i] == b + "[]" && order[p] == b
    requires forall j :: 0 <= j < |order| && j != i ==> !Writes(order[j], fields[order[j]], order[i])
    ensures var pre := ConvertAll(fields, order[..i], parse);
      b in pre && pre[b] == Converted(fields[b], parse) && order[i] !in pre
  {
    WritersOfBase(fields, order, b, i);
    ConvertNoWriter(fields, order[..i], parse, order[i]);
    assert order[..i][p] == b;
    ConvertLastWrite(fields, order[..i], parse, p);
  }

  /** A push onto a key that is present, from an `x[]` key that is not. */
  lemma PushOnto(result: map<string, Value>, key: string, value: Value)
    requires IsArrayName(key) && BaseName(key) in result && key !in result
    ensures var r := PushEntry(result, key, value);
      var base := BaseName(key);
      var v := result[base];
      && (!Truthy(v) ==> base in r && r[base] == Arr([value]) && key !in r)
      && (v.Arr? ==> base in r && r[base] == Arr(v.items + [value]) && key !in r)
      && (Truthy(v) && !v.Arr? ==> base in r && r[base] == v && key in r && r[key] == value)
  {
  }

  /** `b` followed by `b[]`: the push extends a converted list, starts a
      list in place of a falsy value, and otherwise throws, keeping `b` and
      leaving the string under `b[]`. */
  lemma BaseThenPush(fields: map<string, Value>, order: seq<string>, parse: string -> Option<Value>, b: string, i: int, p: int)
    requires EnumerationOf(order, fields)
    requires !IsArrayName(b)
    requires 0 <= p < i < |order| && order[i] == b + "[]" && order[p] == b
    requires fields[order[i]].Str? && !Bracketed(fields[order[i]].s)
    requires forall j :: 0 <= j < |order| && j != i ==> !Writes(order[j], fields[order[j]], order[i])
    ensures var r := ConvertAll(fields, order, parse);
      var v := Converted(fields[b], parse);
      var s := fields[order[i]];
      && (!Truthy(v) ==> b in r && r[b] == Arr([s]) && order[i] !in r)
      && (v.Arr? ==> b in r && r[b] == Arr(v.items + [s]) && order[i] !in r)
      && (Truthy(v) && !v.Arr? ==> b in r && r[b] == v && order[i] in r && r[order[i]] == s)
  {
    var pre := ConvertAll(fields, order[..i], parse);
    BaseBeforePush(fields, order, parse, b, i, p);
    PushStep(fields, order, parse, b, i);
    PushOnto(pre, order[i], fields[order[i]]);
    WritersOfBase(fields, order, b, i);
    ConvertFrame(fields, order, parse, b, i + 1);
    ConvertFrame(fields, order, parse, order[i], i + 1);
  }

  // ---- files by field ----

  /** The files uploaded under one field name, in upload order. */
  function FilesOf(files: seq<FileInfo>, name: string): (r: seq<FileInfo>)
    ensures forall i :: 0 <= i < |r| ==> r[i].fieldname == name && r[i] in files
  {
    if files == [] then []
    else FilesOf(files[..|files| - 1], name) + (if files[|files| - 1].fieldname == name then [files[|files| - 1]] else [])
  }

  /** Some file was uploaded under field name `k`. */
  predicate Carries(files: seq<FileInfo>, k: string) {
    exists i :: 0 <= i < |files| && files[i].fieldname == k
  }

  /** The `reduce` that groups the files by field name. */
  function GroupByField(files: seq<FileInfo>): (g: map<string, seq<FileInfo>>)
    ensures forall k :: k in g <==> Carries(files, k)
    ensures forall k :: k in g ==> g[k] == FilesOf(files, k) && g[k] != []
  {
    if files == [] then map[]
    else
      var g := GroupByField(files[..|files| - 1]);
      var f := files[|files| - 1];
      GroupExtend(files, g);
      g[f.fieldname := (if f.fieldname in g then g[f.fieldname] else []) + [f]]
  }

  /** Filtering a list with one more file. */
  lemma FilesOfSnoc(files: seq<FileInfo>, k: string)
    requires files != []
    ensures FilesOf(files, k) == FilesOf(files[..|files| - 1], k) + (if files[|files| - 1].fieldname == k then [files[|files| - 1]] else [])
  {
  }

  /** A field name that no file carries has no files. */
  lemma FilesOfAbsent(files: seq<FileInfo>, k: string)
    requires !Carries(files, k)
    ensures FilesOf(files, k) == []
  {
  }

  /** A list with one more file carries the names of the list and the new file's name. */
  lemma CarriesSnoc(files: seq<FileInfo>, k: string)
    requires files != []
    ensures Carries(files, k) <==> Carries(files[..|files| - 1], k) || files[|files| - 1].fieldname == k
  {
    var init := files[..|files| - 1];
    if Carries(init, k) {
      var i :| 0 <= i < |init| && init[i].fieldname == k;
      assert files[i].fieldname == k;
    }
    if Carries(files, k) && files[|files| - 1].fieldname != k {
      var i :| 0 <= i < |files| && files[i].fieldname == k;
      assert init[i].fieldname == k;
    }
  }

  /** One step of the grouping keeps it equal to the filter per field name. */
  lemma GroupExtend(files: seq<FileInfo>, g: map<string, seq<FileInfo>>)
    requires files != []
    requires forall k :: k in g <==> Carries(files[..|files| - 1], k)
    requires forall k :: k in g ==> g[k] == FilesOf(files[..|files| - 1], k) && g[k] != []
    ensures var f := files[|files| - 1];
      var r := g[f.fieldname := (if f.fieldname in g then g[f.fieldname] else []) + [f]];
      && (forall k :: k in r <==> Carries(files, k))
      && (forall k :: k in r ==> r[k] == FilesOf(files, k) && r[k] != [])
  {
    GroupExtendKeys(files, g);
    GroupExtendValues(files, g);
  }

  /** The key half of `GroupExtend`. */
  lemma GroupExtendKeys(files: seq<FileInfo>, g: map<string, seq<FileInfo>>)
    requires files != []
    requires forall k :: k in g <==> Carries(files[..|files| - 1], k)
    ensures forall k :: k in g || k == files[|files| - 1].fieldname <==> Carries(files, k)
  {
    forall k ensures k in g || k == files[|files| - 1].fieldname <==> Carries(files, k) {
      CarriesSnoc(files, k);
    }
  }

  /** The value half of `GroupExtend`. */
  lemma GroupExtendValues(files: seq<FileInfo>, g: map<string, seq<FileInfo>>)
    requires files != []
    requires forall k :: k in g <==> Carries(files[..|files| - 1], k)
    requires forall k :: k in g ==> g[k] == FilesOf(files[..|files| - 1], k) && g[k] != []
    ensures var f := files[|files| - 1];
      var r := g[f.fieldname := (if f.fieldname in g then g[f.fieldname] else []) + [f]];
      forall k :: k in r ==> r[k] == FilesOf(files, k) && r[k] != []
  {
    var f := files[|files| - 1];
    var r := g[f.fieldname := (if f.fieldname in g then g[f.fieldname] else []) + [f]];
    forall k | k in r ensures r[k] == FilesOf(files, k) && r[k] != [] {
      GroupExtendValueAt(files, g, k);
    }
  }

  /** `GroupExtendValues` at one field name. */
  lemma GroupExtendValueAt(files: seq<FileInfo>, g: map<string, seq<FileInfo>>, k: string)
    requires files != []
    requires k in g <==> Carries(files[..|files| - 1], k)
    requires k in g ==> g[k] == FilesOf(files[..|files| - 1], k) && g[k] != []
    ensures var f := files[|files| - 1];
      var r := g[f.fieldname := (if f.fieldname in g then g[f.fieldname] else []) + [f]];
      k in r ==> r[k] == FilesOf(files, k) && r[k] != []
  {
    FilesOfSnoc(files, k);
    if k == files[|files| - 1].fieldname && k !in g {
      FilesOfAbsent(files[..|files| - 1], k);
    }
  }

  function FileValues(group: seq<FileInfo>): (r: seq<Value>)
    ensures |r| == |group| && forall i :: 0 <= i < |group| ==> r[i] == File(group[i])
  {
    seq(|group|, i requires 0 <= i < |group| => File(group[i]))
  }

  /** What the body gets for a field with files: the file itself when there
      is one, the list when there are several, and always the list for
      `backgroundImages`. */
  function Placed(name: string, group: seq<FileInfo>): (v: Value)
    requires group != []
    ensures name == "backgroundImages" || |group| > 1 <==> v == Arr(FileValues(group))
    ensures name != "backgroundImages" && |group| == 1 <==> v == File(group[0])
  {
    if name == "backgroundImages" then Arr(FileValues(group))
    else if |group| == 1 then File(group[0])
    else Arr(FileValues(group))
  }

  /** Every field with files gets its placed value; other keys keep theirs. */
  function PlaceFiles(body: map<string, Value>, groups: map<string, seq<FileInfo>>): (r: map<string, Value>)
    requires forall k :: k in groups ==> groups[k] != []
    ensures r.Keys == body.Keys + groups.Keys
    ensures forall k :: k in groups ==> r[k] == Placed(k, groups[k])
    ensures forall k :: k in body && k !in groups ==> r[k] == body[k]
  {
    map k | k in body.Keys + groups.Keys :: if k in groups then Placed(k, groups[k]) else body[k]
  }

  // ---- field mappings ----

  /** A field mapping: the files of `sourceField` become paths under
      `targetField`; `transformPath` replaces the default path of a file. */
  datatype FieldMapping = FieldMapping(sourceField: string, targetField: string, isArray: bool,
                                       transformPath: Option<FileInfo -> string>)

  /** `file.publicUrl || "/uploads/" + file.filename`. */
  function FileUrl(f: FileInfo): (u: string)
    ensures u != ""
  {
    if f.publicUrl != "" then f.publicUrl else "/uploads/" + f.filename
  }

  function MappedPaths(m: FieldMapping, group: seq<FileInfo>): (r: seq<string>)
    ensures |r| == |group|
    ensures m.transformPath.None? ==> forall i :: 0 <= i < |group| ==> r[i] == FileUrl(group[i])
  {
    seq(|group|, i requires 0 <= i < |group| => if m.transformPath.Some? then m.transformPath.value(group[i]) else FileUrl(group[i]))
  }

  /** One mapping: a source field without files leaves the body as it is. */
  function ApplyMapping(body: map<string, Value>, groups: map<string, seq<FileInfo>>, m: FieldMapping): (r: map<string, Value>)
    ensures m.sourceField !in groups ==> r == body
    ensures m.sourceField in groups ==> r.Keys == body.Keys + {m.targetField}
    ensures forall k :: k in body && k != m.targetField ==> r[k] == body[k]
    ensures m.sourceField in groups && m.isArray ==> r[m.targetField] == Arr(Strs(MappedPaths(m, groups[m.sourceField])))
  {
    if m.sourceField in groups then
      var paths := MappedPaths(m, groups[m.sourceField]);
      body[m.targetField := if m.isArray || |paths| != 1 then Arr(Strs(paths)) else Str(paths[0])]
    else body
  }

  /** The mappings in order; a later mapping to the same target wins. */
  function ApplyMappings(body: map<string, Value>, groups: map<string, seq<FileInfo>>, ms: seq<FieldMapping>): map<string, Value> {
    if ms == [] then body else ApplyMapping(ApplyMappings(body, groups, ms[..|ms| - 1]), groups, ms[|ms| - 1])
  }

  /** One more mapping on top of the earlier ones. */
  lemma ApplyMappingsStep(body: map<string, Value>, groups: map<string, seq<FileInfo>>, ms: seq<FieldMapping>, i: int)
    requires 0 <= i < |ms|
    ensures ApplyMappings(body, groups, ms[..i + 1]) == ApplyMapping(ApplyMappings(body, groups, ms[..i]), groups, ms[i])
  {
    assert ms[..i + 1][..i] == ms[..i];
  }

  /** A mapping without `isArray` turns one file into a single path and several into a list. */
  lemma MappingShape(body: map<string, Value>, groups: map<string, seq<FileInfo>>, m: FieldMapping)
    requires m.sourceField in groups && !m.isArray
    ensures var paths := MappedPaths(m, groups[m.sourceField]);
      ApplyMapping(body, groups, m)[m.targetField] == if |paths| == 1 then Str(paths[0]) else Arr(Strs(paths))
  {
  }

  /** Keys that no mapping targets keep their values. */
  lemma {:induction false} MappingsKeepOtherKeys(body: map<string, Value>, groups: map<string, seq<FileInfo>>, ms: seq<FieldMapping>, k: string)
    requires k in body && forall i :: 0 <= i < |ms| ==> ms[i].targetField != k
    ensures k in ApplyMappings(body, groups, ms) && ApplyMappings(body, groups, ms)[k] == body[k]
  {
    if ms != [] {
      MappingsKeepOtherKeys(body, groups, ms[..|ms| - 1], k);
    }
  }

  // ---- combined files ----

  /** Existing entries and new files merged into one target field. */
  datatype CombineOption = CombineOption(existingFieldName: string, targetFieldName: string, newFileFieldName: string)

  /** The entries already stored under `name`, parsed as a list when truthy. */
  function ExistingEntries(processed: map<string, Value>, name: string, parse: string -> Option<Value>): seq<Value> {
    if name in processed && Truthy(processed[name]) then ParseArrayField(processed[name], parse) else []
  }

  /** The URLs of some files, in their order. */
  function Urls(files: seq<FileInfo>): (r: seq<Value>)
    ensures |r| == |files| && forall i :: 0 <= i < |r| ==> r[i] == Str(FileUrl(files[i]))
  {
    if files == [] then [] else Urls(files[..|files| - 1]) + [Str(FileUrl(files[|files| - 1]))]
  }

  /** The URLs of the files uploaded under `name`, in upload order. */
  function NewUrls(groups: map<string, seq<FileInfo>>, name: string): seq<Value> {
    if name in groups then Urls(groups[name]) else []
  }

  /** The existing entries followed by the URLs of the new files. */
  function Combined(processed: map<string, Value>, groups: map<string, seq<FileInfo>>, c: CombineOption,
                    parse: string -> Option<Value>): seq<Value>
  {
    ExistingEntries(processed, c.existingFieldName, parse) + NewUrls(groups, c.newFileFieldName)
  }

  function ApplyCombines(body: map<string, Value>, processed: map<string, Value>, groups: map<string, seq<FileInfo>>,
                         cs: seq<CombineOption>, parse: string -> Option<Value>): map<string, Value> {
    if cs == [] then body
    else ApplyCombines(body, processed, groups, cs[..|cs| - 1], parse)[cs[|cs| - 1].targetFieldName := Arr(Combined(processed, groups, cs[|cs| - 1], parse))]
  }

  /** One more combination on top of the earlier ones. */
  lemma ApplyCombinesStep(body: map<string, Value>, processed: map<string, Value>, groups: map<string, seq<FileInfo>>,
                          cs: seq<CombineOption>, i: int, parse: string -> Option<Value>)
    requires 0 <= i < |cs|
    ensures ApplyCombines(body, processed, groups, cs[..i + 1], parse)
         == ApplyCombines(body, processed, groups, cs[..i], parse)[cs[i].targetFieldName := Arr(Combined(processed, groups, cs[i], parse))]
  {
    assert cs[..i + 1][..i] == cs[..i];
  }

  /** The combined list has the existing entries first (none when the
      existing field is absent, the parsed list when it is truthy), then one
      URL per new file in upload order. */
  lemma CombinedOrder(processed: map<string, Value>, groups: map<string, seq<FileInfo>>, c: CombineOption, parse: string -> Option<Value>)
    ensures var r := Combined(processed, groups, c, parse);
      var ex := ExistingEntries(processed, c.existingFieldName, parse);
      && |ex| <= |r| && r[..|ex|] == ex
      && (c.existingFieldName !in processed ==> ex == [])
      && (c.existingFieldName in processed && Truthy(processed[c.existingFieldName]) ==>
            ex == ParseArrayField(processed[c.existingFieldName], parse))
      && (c.newFileFieldName !in groups ==> |r| == |ex|)
      && (c.newFileFieldName in groups ==>
            var g := groups[c.newFileFieldName];
            |r| == |ex| + |g| && forall i :: 0 <= i < |g| ==> r[|ex| + i] == Str(FileUrl(g[i])))
  {
    var r := Combined(processed, groups, c, parse);
    var ex := ExistingEntries(processed, c.existingFieldName, parse);
    var nu := NewUrls(groups, c.newFileFieldName);
    assert r == ex + nu;
    AppendParts(ex, nu);
  }

  /** The two parts of a concatenation, read back. */
  lemma AppendParts(a: seq<Value>, b: seq<Value>)
    ensures |a + b| == |a| + |b| && (a + b)[..|a|] == a
    ensures forall i :: 0 <= i < |b| ==> (a + b)[|a| + i] == b[i]
  {
  }

  // ---- the hook ----

  /** The options of the hook that shape the body. */
  datatype HookOptions = HookOptions(upload: UploadOptions, convertTextToJson: bool,
                                     fieldMapping: seq<FieldMapping>, combineExistingFiles: seq<CombineOption>)

  /** The body after a successful upload: the old body with the (converted)
      fields over it, the files over that, then the mappings and the
      combined fields. */
  function Assemble(body: map<string, Value>, files: seq<FileInfo>, fields: map<string, Value>, order: seq<string>,
                    opts: HookOptions, parse: string -> Option<Value>): map<string, Value>
    requires EnumerationOf(order, fields)
  {
    var processed := if opts.convertTextToJson then ConvertAll(fields, order, parse) else fields;
    var groups := GroupByField(files);
    var placed := PlaceFiles(body + processed, groups);
    ApplyCombines(ApplyMappings(placed, groups, opts.fieldMapping), processed, groups, opts.combineExistingFiles, parse)
  }

  /** With no files, mappings, combinations or conversion, the fields
      overwrite body keys of the same name and every other body key stays. */
  lemma FieldsOverwriteBody(body: map<string, Value>, fields: map<string, Value>, order: seq<string>,
                            opts: HookOptions, parse: string -> Option<Value>)
    requires EnumerationOf(order, fields)
    requires !opts.convertTextToJson && opts.fieldMapping == [] && opts.combineExistingFiles == []
    ensures var r := Assemble(body, [], fields, order, opts, parse);
      && r.Keys == body.Keys + fields.Keys
      && (forall k :: k in fields ==> r[k] == fields[k])
      && (forall k :: k in body && k !in fields ==> r[k] == body[k])
  {
    assert GroupByField([]) == map[];
  }

  /** A field with uploaded files that no mapping or combination targets
      holds the placed files, whatever the body or the fields had there. */
  lemma FilesOverrideFields(body: map<string, Value>, files: seq<FileInfo>, fields: map<string, Value>, order: seq<string>,
                            opts: HookOptions, parse: string -> Option<Value>, name: string)
    requires EnumerationOf(order, fields)
    requires exists i :: 0 <= i < |files| && files[i].fieldname == name
    requires forall i :: 0 <= i < |opts.fieldMapping| ==> opts.fieldMapping[i].targetField != name
    requires opts.combineExistingFiles == []
    ensures var r := Assemble(body, files, fields, order, opts, parse);
      name in r && r[name] == Placed(name, FilesOf(files, name))
  {
    var processed := if opts.convertTextToJson then ConvertAll(fields, order, parse) else fields;
    var groups := GroupByField(files);
    var placed := PlaceFiles(body + processed, groups);
    MappingsKeepOtherKeys(placed, groups, opts.fieldMapping, name);
  }

  /** The request as the hook sees and changes it. */
  class RequestContext {
    const isMultipart: bool
    var body: map<string, Value>
    var files: seq<FileInfo>
    var reqBody: map<string, Value>

    constructor (multipart: bool, b: map<string, Value>)
      ensures isMultipart == multipart && body == b && reqBody == b && files == []
    {
      isMultipart := multipart;
      body := b;
      files := [];
      reqBody := b;
    }

    /** `processFieldMappings`. */
    method ProcessFieldMappings(groups: map<string, seq<FileInfo>>, ms: seq<FieldMapping>)
      modifies this
      ensures body == ApplyMappings(old(body), groups, ms)
      ensures files == old(files) && reqBody == old(reqBody)
    {
      var i := 0;
      while i < |ms|
        invariant 0 <= i <= |ms|
        invariant body == ApplyMappings(old(body), groups, ms[..i])
        invariant files == old(files) && reqBody == old(reqBody)
      {
        ApplyMappingsStep(old(body), groups, ms, i);
        var m := ms[i];
        if m.sourceField in groups {
          var paths := MappedPaths(m, groups[m.sourceField]);
          if m.isArray {
            body := body[m.targetField := Arr(Strs(paths))];
          } else if |paths| == 1 {
            body := body[m.targetField := Str(paths[0])];
          } else {
            body := body[m.targetField := Arr(Strs(paths))];
          }
        }
        i := i + 1;
      }
      assert ms[..|ms|] == ms;
    }

    /** `processCombinedFiles`. */
    method ProcessCombinedFiles(groups: map<string, seq<FileInfo>>, processed: map<string, Value>,
                                cs: seq<CombineOption>, parse: string -> Option<Value>)
      modifies this
      ensures body == ApplyCombines(old(body), processed, groups, cs, parse)
      ensures files == old(files) && reqBody == old(reqBody)
    {
      var i := 0;
      while i < |cs|
        invariant 0 <= i <= |cs|
        invariant body == ApplyCombines(old(body), processed, groups, cs[..i], parse)
        invariant files == old(files) && reqBody == old(reqBody)
      {
        ApplyCombinesStep(old(body), processed, groups, cs, i, parse);
        body := body[cs[i].targetFieldName := Arr(Combined(processed, groups, cs[i], parse))];
        i := i + 1;
      }
      assert cs[..|cs|] == cs;
    }

    /** `processFileUpload`, given what the upload produced (its files and
        fields, or its failure) and the enumeration order of the fields. */
    method ProcessFileUpload(opts: HookOptions, upload: Result<(seq<FileInfo>, map<string, Value>), Error>,
                             order: seq<string>, parse: string -> Option<Value>) returns (r: Result<bool, Error>)
      requires upload.Ok? ==> EnumerationOf(order, upload.value.1)
      modifies this
      ensures !isMultipart ==> r == Ok(false) && body == old(body) && files == old(files) && reqBody == old(reqBody)
      ensures isMultipart && upload.Err? ==>
        r == Err(upload.error) && body == old(body) && files == old(files) && reqBody == old(reqBody)
      ensures isMultipart && upload.Ok? ==>
        && r == Ok(true) && files == upload.value.0
        && body == Assemble(old(body), upload.value.0, upload.value.1, order, opts, parse)
        && reqBody == body
    {
      if !isMultipart {
        return Ok(false);
      }
      if upload.Err? {
        return Err(upload.error);
      }
      var (uploaded, fields) := upload.value;
      files := uploaded;
      var processed := fields;
      if opts.convertTextToJson {
        processed := ConvertFieldsToJson(fields, order, parse);
      }
      body := body + processed;
      var groups: map<string, seq<FileInfo>> := map[];
      if |files| > 0 {
        groups := GroupByField(files);
        body := PlaceFiles(body, groups);
      } else {
        assert GroupByField(files) == map[];
        assert PlaceFiles(body, groups) == body;
      }
      MapAndCombine(groups, processed, opts, parse);
      reqBody := body;
      r := Ok(true);
    }

    /** The field mappings, then the combined fields, each only when configured. */
    method MapAndCombine(groups: map<string, seq<FileInfo>>, processed: map<string, Value>, opts: HookOptions,
                         parse: string -> Option<Value>)
      modifies this
      ensures body == ApplyCombines(ApplyMappings(old(body), groups, opts.fieldMapping), processed, groups,
                                    opts.combineExistingFiles, parse)
      ensures files == old(files) && reqBody == old(reqBody)
    {
      if |opts.fieldMapping| > 0 {
        ProcessFieldMappings(groups, opts.fieldMapping);
      }
      if |opts.combineExistingFiles| > 0 {
        ProcessCombinedFiles(groups, processed, opts.combineExistingFiles, parse);
      }
    }
  }
}
