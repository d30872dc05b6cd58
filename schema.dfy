/**
 * The tool input schemas, as far as the handlers depend on them. The MCP
 * server parses every tool input against its zod object schema before the
 * handler runs: required members are present, each member has its declared
 * type, and members the schema does not declare are dropped.
 */
module Schema {
  import opened Json

  /** An object schema: the members it requires and the ones it also allows. */
  datatype Shape = Shape(required: set<Key>, optional: set<Key>)

  /** `args` holds every required member and nothing undeclared. */
  predicate Conforms(args: Fields, shape: Shape) {
    shape.required <= args.Keys <= shape.required + shape.optional
  }

  /**
   * The zod type of a member: string, boolean, number, string array, string
   * enum, or one of the two nested objects the tools declare.
   */
  datatype Kind =
    | Text
    | Flag
    | Count
    | TextList
    | OneOf(options: set<string>)
    | RateObject    // `{ amount: number, currency?: string }`
    | FilterObject  // `filterEntitySchema` of the report tools

  predicate IsTextList(j: Json) {
    j.Array? && forall x | x in j.items :: x.String?
  }

  predicate HasKind(j: Json, kind: Kind) {
    match kind
    case Text => j.String?
    case Flag => j.Bool?
    case Count => j.Number?
    case TextList => IsTextList(j)
    case OneOf(options) => j.String? && j.s in options
    case RateObject =>
      && j.Object? && Conforms(j.fields, Shape({Amount}, {Currency}))
      && j.fields[Amount].Number?
      && (Currency in j.fields ==> j.fields[Currency].String?)
    case FilterObject =>
      && j.Object? && Conforms(j.fields, Shape({}, {Ids, Contains, Status}))
      && (Ids in j.fields ==> IsTextList(j.fields[Ids]))
      && (Contains in j.fields ==> j.fields[Contains] in {String("CONTAINS"), String("DOES_NOT_CONTAIN")})
      && (Status in j.fields ==> j.fields[Status] in {String("ALL"), String("ACTIVE"), String("ARCHIVED")})
  }

}
