/** The record shapes of the application. An absent optional string field (`id` not yet
    assigned, no `title`, ...) is the empty string, which is also how the application
    tests for it: JavaScript treats both `undefined` and `''` as false. */
module Types {

  datatype Option<T> = None | Some(value: T)

  /** A customer, a restricted party (RPL) or a Zyme entry. `website` and `businessSummary`
      are set by the screening copilot, `entryType` is the Zyme `type` column; all three are
      carried along and never inspected. */
  datatype Entity = Entity(
    id: string,
    name: string,
    address: string,
    website: string,
    businessSummary: string,
    entryType: string)

  datatype Category = General | Aprv

  /** A standard comment. For an APRV comment `title` is the "applying for" field and
      `text` the approval text. */
  datatype CommentItem = CommentItem(
    id: string,
    category: Category,
    text: string,
    title: string,
    additionalInfo: string,
    remarks: string)

  datatype Region = Apj | Emea | Ams

  datatype Country = Country(code: string, name: string, region: Region)

  /** The random id generator, `Math.random().toString(36).substr(2, 9)`, as an oracle:
      the `i`-th call yields `gen(i)`. */
  type IdOracle = nat -> string

  /** The ids of a collection. */
  function Ids(s: seq<Entity>): set<string>
  {
    set e | e in s :: e.id
  }
}
