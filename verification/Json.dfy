/** JSON values as encoding/json decodes them into `any`, and the two map helpers both codecs use.
    A nil Go map and an empty one are the same value here. */
module Json {
  datatype Json =
    | Null
    | Bool(b: bool)
    | Num(n: real)
    | Str(s: string)
    | Arr(a: seq<Json>)
    | Obj(o: Fields)

  type Fields = map<string, Json>

  /** The string under `key`, or "" when it is absent or not a string. */
  function StringField(m: Fields, key: string): string {
    if key in m && m[key].Str? then m[key].s else ""
  }

  /** The object under `key`, or no fields when it is absent or not an object. */
  function ObjectField(m: Fields, key: string): Fields {
    if key in m && m[key].Obj? then m[key].o else map[]
  }

  function Without(m: Fields, skip: seq<string>): Fields {
    map k | k in m && k !in skip :: m[k]
  }

  method CopyExtras(m: Fields, skip: seq<string>) returns (out: Fields)
    ensures out == Without(m, skip)
  {
    out := map[];
    var todo := m.Keys;
    while todo != {}
      invariant todo <= m.Keys
      invariant out == map k | k in m && k !in todo && k !in skip :: m[k]
      decreases todo
    {
      var key :| key in todo;
      if key !in skip {
        out := out[key := m[key]];
      }
      todo := todo - {key};
    }
  }

  /** Whether a value decodes as []map[string]any: an array of objects and nulls. */
  predicate IsPartList(raw: Json) {
    raw.Arr? && forall i | 0 <= i < |raw.a| :: raw.a[i].Obj? || raw.a[i].Null?
  }

  /** One element of such an array; null decodes to a nil map. */
  function PartFields(p: Json): Fields {
    if p.Obj? then p.o else map[]
  }

  function KindOf(part: Json): string {
    StringField(PartFields(part), "type")
  }

  /** Laying fresh fields over extras loses nothing that is not itself laid over. */
  lemma WithoutOverlay(extras: Fields, overlay: Fields, skip: seq<string>)
    requires forall k | k in extras :: k !in skip
    requires forall k | k in overlay :: k in skip || (k in extras && extras[k] == overlay[k])
    ensures Without(extras + overlay, skip) == extras
  {
  }
}
