/** Stand-ins for the parts of the database driver the loader uses: bound values, statements
    with positional parameters, user-defined (nested) values, set collections, batches and
    the schema snapshot. Statements, user types, sets and batches are mutable driver objects
    that the loader fills in step by step, so they are classes; each has a function giving
    the value it currently holds. */
module Driver {
  import opened Ints

  /** A 128-bit identifier. */
  type Uuid = n: int | 0 <= n < 0x1_0000_0000_0000_0000_0000_0000_0000_0000

  /** A value stored in one field of a user-defined value. */
  datatype Field = Int16(i16: I16) | Int64(i64: I64) | TextSet(texts: set<string>)

  /** A value bound to one parameter of a statement. */
  datatype Value =
    | UuidValue(uuid: Uuid)
    | Text(text: string)
    | Bool(flag: bool)
    | Udt(typeName: string, fields: map<string, Field>)

  /** What a statement holds: the table it writes, its column list (one `?` parameter per
      column, in order) and the values bound so far, by parameter index. */
  datatype StatementValue =
    StatementValue(keyspace: string, table: string, columns: seq<string>, bound: map<nat, Value>)

  datatype BatchType = Logged | Unlogged | Counter

  /** What a batch holds when it is submitted. */
  datatype BatchValue = BatchValue(kind: BatchType, statements: seq<StatementValue>)

  /** The declared shape of a user-defined type: its name and its field names. */
  datatype UserTypeMeta = UserTypeMeta(name: string, fieldNames: set<string>)

  /** The schema snapshot: keyspace name to user-type name to field names. */
  type SchemaMeta = map<string, map<string, set<string>>>

  /** A statement with positional parameters, one per column. */
  class Statement {
    const keyspace: string
    const table: string
    const columns: seq<string>
    var bound: map<nat, Value>

    constructor (keyspace: string, table: string, columns: seq<string>)
      ensures this.keyspace == keyspace && this.table == table && this.columns == columns
      ensures bound == map[]
    {
      this.keyspace := keyspace;
      this.table := table;
      this.columns := columns;
      bound := map[];
    }

    /** `bind_*`: fails, binding nothing, when the index has no parameter. */
    method Bind(index: nat, v: Value) returns (ok: bool)
      modifies this
      ensures ok <==> index < |columns|
      ensures bound == if ok then old(bound)[index := v] else old(bound)
    {
      ok := index < |columns|;
      if ok {
        bound := bound[index := v];
      }
    }

    function Snapshot(): StatementValue
      reads this
    {
      StatementValue(keyspace, table, columns, bound)
    }
  }

  /** A user-defined value being filled in, field by field, by name. */
  class UserType {
    const meta: UserTypeMeta
    var fields: map<string, Field>

    /** `new_user_type()`: an empty value of the given type. */
    constructor (meta: UserTypeMeta)
      ensures this.meta == meta && fields == map[]
    {
      this.meta := meta;
      fields := map[];
    }

    /** `set_*_by_name`: fails, setting nothing, when the type has no field of that name. */
    method SetByName(name: string, v: Field) returns (ok: bool)
      modifies this
      ensures ok <==> name in meta.fieldNames
      ensures fields == if ok then old(fields)[name := v] else old(fields)
    {
      ok := name in meta.fieldNames;
      if ok {
        fields := fields[name := v];
      }
    }

    function AsValue(): Value
      reads this
    {
      Udt(meta.name, fields)
    }
  }

  /** An untyped set collection of text elements. */
  class CollectionSet {
    var items: seq<string>

    /** `Set::new()`: an empty collection. */
    constructor ()
      ensures items == [] && Elements() == {}
    {
      items := [];
    }

    /** `append_string`: an untyped collection accepts every string. */
    method AppendString(s: string)
      modifies this
      ensures items == old(items) + [s]
    {
      items := items + [s];
    }

    function Elements(): set<string>
      reads this
    {
      set s | s in items
    }
  }

  /** A batch of statements, submitted as one unit. */
  class Batch {
    const kind: BatchType
    var statements: seq<StatementValue>

    constructor (kind: BatchType)
      ensures this.kind == kind && statements == []
    {
      this.kind := kind;
      statements := [];
    }

    /** `add_statement`: the batch records the statement's contents at the time it is added.
        Whether the driver copies the statement or keeps a reference to it makes no difference
        to the loader, which never changes a statement after adding it to a batch. */
    method AddStatement(s: Statement)
      modifies this
      ensures statements == old(statements) + [s.Snapshot()]
    {
      statements := statements + [s.Snapshot()];
    }

    function Snapshot(): BatchValue
      reads this
    {
      BatchValue(kind, statements)
    }
  }
}
