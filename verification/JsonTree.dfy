/**
 JSON values as the TypeScript code handles them: objects keep their keys in insertion
 order, a number is identified by the text `JSON.stringify` gives it, and `Missing` is
 JavaScript's `undefined`, which a projection can leave in an object field.
 */
module JsonTree {

  datatype Member<T> = Member(key: string, value: T)

  datatype Json =
    | Missing
    | Null
    | Bool(b: bool)
    | Num(text: string)
    | Str(s: string)
    | Arr(items: seq<Json>)
    | Obj(fields: seq<Member<Json>>)
}
