/**
 The values that flow between the lottery scraper's stages: the per-game
 dictionaries are modelled as maps from field name to a Python scalar, and
 Python's truthiness of those scalars is written out.
 */
module Values {

  datatype Option<+T> = None | Some(value: T) {
    /** `dict.get(key, default)`-style fallback. */
    function GetOr(default: T): T {
      match this
      case Some(v) => v
      case None => default
    }
  }

  /** The scalar kinds the pipeline stores in its dictionaries: text, and the
      integer a roll count is converted to. */
  datatype Value = Str(s: string) | Int(n: int)

  /** Python truthiness of a scalar: the empty string and zero are false. */
  predicate Truthy(v: Value)
    ensures !Truthy(v) <==> v == Str("") || v == Int(0)
  {
    match v
    case Str(s) => s != ""
    case Int(n) => n != 0
  }

  /** One game's fields, as a field-name to value dictionary. */
  type Fields = map<string, Value>

  /** Game name to that game's fields. */
  type GameTable = map<string, Fields>

  /** `d.get(key)` followed by a truth test: a missing key reads as `None`,
      which is false. */
  predicate TruthyAt(d: Fields, key: string)
    ensures TruthyAt(d, key) ==> key in d
  {
    key in d && Truthy(d[key])
  }
}
