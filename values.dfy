/** JavaScript values as they appear in request bodies, multipart fields and
    parsed JSON. An absent key of a map stands for `undefined`. */
module Values {

  /** An uploaded file as the upload library records it. */
  datatype FileInfo = FileInfo(
    fieldname: string,
    filename: string,
    encoding: string,
    mimetype: string,
    size: int,
    originalFilename: string,
    publicUrl: string)

  datatype Value =
    | Null
    | Bool(b: bool)
    | Num(n: int)
    | Str(s: string)
    | Arr(items: seq<Value>)
    | Obj(entries: map<string, Value>)
    | File(file: FileInfo)

  /** JavaScript truthiness: `null`, `false`, `0` and `""` are falsy; arrays,
      objects and files are truthy even when empty. */
  predicate Truthy(v: Value) {
    match v
    case Null => false
    case Bool(b) => b
    case Num(n) => n != 0
    case Str(s) => s != ""
    case _ => true
  }
}
