/** The engine's tagged save-format tree (NBT), reduced to the node kinds the
    armour reads and writes, with the engine's lookup rules: a lookup of a
    missing or wrongly typed entry yields a default instead of failing. */
module Nbt {

  datatype Tag =
    | Compound(fields: map<string, Tag>)
    | TagList(items: seq<Tag>)
    | Str(text: string)
    | Int(value: int)

  /** The contents of a compound tag. */
  type Fields = map<string, Tag>

  /** The string under `key`, or the empty string. */
  function GetString(c: Fields, key: string): string {
    if key in c && c[key].Str? then c[key].text else ""
  }

  /** The integer under `key`, or zero. */
  function GetInteger(c: Fields, key: string): int {
    if key in c && c[key].Int? then c[key].value else 0
  }

  /** The compound under `key`, or an empty compound. */
  function GetCompound(c: Fields, key: string): Fields {
    if key in c && c[key].Compound? then c[key].fields else map[]
  }

  /** The list of compounds under `key`: the elements when the entry is a list
      whose elements are all compounds, and an empty list otherwise. */
  function GetCompoundList(c: Fields, key: string): seq<Tag> {
    if key in c && c[key].TagList? && (forall i :: 0 <= i < |c[key].items| ==> c[key].items[i].Compound?)
    then c[key].items
    else []
  }

  /** A list element read as a compound: its fields, or an empty compound. */
  function AsCompound(t: Tag): Fields {
    if t.Compound? then t.fields else map[]
  }
}
