/**
 * Spring AI documents as the schema service and the splitters see them:
 * an id, an optional text and a metadata map.
 */
module Documents {
  import opened Wrappers

  /** The metadata value kinds the modelled code reads or writes. */
  datatype MetaValue = MStr(s: string) | MList(items: seq<string>) | MInt(n: int) | MOther

  type Metadata = map<string, MetaValue>

  datatype Document = Document(id: string, text: Option<string>, metadata: Metadata)

  /**
   * `(String) meta.get(key)`: the string stored under `key`, or None when the key is absent.
   * A value of another kind is read as absent.
   */
  function MetaStr(meta: Metadata, key: string): (r: Option<string>)
    ensures r.Some? <==> key in meta && meta[key].MStr?
    ensures r.Some? ==> meta[key] == MStr(r.value)
  {
    if key in meta && meta[key].MStr? then Some(meta[key].s) else None
  }

  /** `(String) meta.getOrDefault(key, default)` */
  function MetaStrOr(meta: Metadata, key: string, default: string): (r: string)
    ensures key !in meta ==> r == default
    ensures key in meta && meta[key].MStr? ==> r == meta[key].s
  {
    MetaStr(meta, key).UnwrapOr(default)
  }
}
