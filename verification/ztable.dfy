/**
 * The view of the table library that the Lua filter relies on: the type tag
 * of a key or value, and the flat sequence of callback invocations with
 * which a table walk visits a (nested) table. A nested table is announced by
 * an entry whose value is a table and closed by an entry whose key is the
 * terminator tag.
 */
module Ztable {

  /** The key and value type tags of the table library. */
  datatype ZType = ZNon | ZInt | ZFlt | ZTxt | ZBlb | ZTbl | ZTrm | ZUsr

  /**
   * One visit of the walk: the entry's index in the table, its key (text
   * when `keyType` is `ZTxt`), its value (`text` when `valueType` is `ZTxt`,
   * `number` when it is `ZInt`), and the dotted full key that the table
   * library reports for that index.
   */
  datatype Keyval = Keyval(
    index: nat,
    keyType: ZType,
    key: string,
    valueType: ZType,
    text: string,
    number: int,
    fullKey: string)
}
