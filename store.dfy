/**
 The todo store: the `todos.csv` file, the `Todo` record it holds, and the
 operations that open it, list it and add to it (main.go, lines 39-137).

 The file is a sequence of CSV records, the first of them the header record.
 How one record is written and read is the CSV library's business; here it is
 a pair of functions, `RowCodec`, that is not interpreted beyond the law
 `Lawful`: reading back a record it wrote under the fixed header gives the
 same fields.
 */
module Store {
  import opened Wrappers
  import opened Tags

  /** A point in time. Clock readings are inputs of the model, never computed. */
  type Time = int

  /** The header record, with the columns in the order of the `Todo` fields. */
  const HEADER: string := "todo_name,tags,created_at,completed_at,is_completed"

  /** The persisted entity (main.go:39-45). */
  datatype Todo = Todo(
    name: string,
    tags: seq<string>,
    createdAt: Time,
    completedAt: Time,
    isCompleted: bool)

  /** A todo as the CSV layer sees it: the tags column is already text. */
  datatype Fields = Fields(
    name: string,
    tagsText: string,
    createdAt: Time,
    completedAt: Time,
    isCompleted: bool)

  /**
   The CSV library's writer and reader of one record. `read` gets the file's
   header record and one data record, and fails on a record it cannot parse
   (a wrong number of fields, a bad timestamp, a bad boolean). `header` says
   whether the first record of a file can be read as a header at all (it
   fails, for one, on a record with a stray quote).
   */
  datatype RowCodec = RowCodec(
    write: Fields -> string,
    read: (string, string) -> Option<Fields>,
    header: string -> bool)

  /**
   The fixed header is accepted, and reading back what was written under it
   gives the same fields.
   */
  ghost predicate Lawful(codec: RowCodec)
  {
    && codec.header(HEADER)
    && forall f :: codec.read(HEADER, codec.write(f)) == Some(f)
  }

  /** Why the file could not be read. */
  datatype ParseError =
    | EmptyFile          // the file holds no record at all, not even a header
    | BadHeader          // the first record cannot be read as a header
    | BadRow(row: nat)   // the data record at this position does not parse

  /**
   What the program prints, in the order it prints it: one value per line,
   except `CreateUsage`, which stands for the whole usage block. The
   dispatcher's messages (`NoCommand`, `NameRequired`, `CreateUsage`) are only
   produced by `Cli.Run`; they live here so that all printed output is one
   sequence of one type. `CreateUsage` goes to standard error, the
   rest to standard output.
   */
  datatype Line =
    | NoTodoLeft                                                    // `No todo left`
    | Entry(index: nat, name: string, tags: seq<string>, completed: bool)  // one listed todo
    | Added(name: string)                                           // the confirmation of AddTodo
    | NoCommand                                                     // `Error: no command provided`
    | NameRequired                                                  // `Error: --name is required`
    | CreateUsage                                                   // the usage text of `create`

  /** The fields the CSV layer writes for a todo: the tags through `MarshalText`. */
  function ToFields(t: Todo): Fields
  {
    Fields(t.name, MarshalText(t.tags), t.createdAt, t.completedAt, t.isCompleted)
  }

  /** The todo the CSV layer builds from fields: the tags through `UnmarshalText`. */
  function FromFields(f: Fields): Todo
  {
    Todo(f.name, ParseTags(f.tagsText), f.createdAt, f.completedAt, f.isCompleted)
  }

  /** One data record of the file. */
  function EncodeTodo(codec: RowCodec, t: Todo): string
  {
    codec.write(ToFields(t))
  }

  /** The todo one data record holds, if it parses. */
  function DecodeTodo(codec: RowCodec, header: string, row: string): Option<Todo>
  {
    match codec.read(header, row)
    case None => None
    case Some(f) => Some(FromFields(f))
  }

  /** What a todo becomes once written and read back: its tags pass through their text form. */
  function Normalise(t: Todo): Todo
  {
    t.(tags := ParseTags(MarshalText(t.tags)))
  }

  /** The data record `row` parses under `header`. */
  predicate Parses(codec: RowCodec, header: string, row: string)
  {
    codec.read(header, row).Some?
  }

  /** Position of the first data record that does not parse. */
  function FirstBadRow(codec: RowCodec, header: string, rows: seq<string>): (k: nat)
    requires exists i :: 0 <= i < |rows| && !Parses(codec, header, rows[i])
    ensures k < |rows| && !Parses(codec, header, rows[k])
    ensures forall i :: 0 <= i < k ==> Parses(codec, header, rows[i])
  {
    if !Parses(codec, header, rows[0]) then 0
    else
      var tail := rows[1..];
      assert exists i :: 0 <= i < |tail| && !Parses(codec, header, tail[i]) by {
        var i :| 0 <= i < |rows| && !Parses(codec, header, rows[i]);
        assert tail[i - 1] == rows[i];
      }
      var k := FirstBadRow(codec, header, tail);
      assert forall i :: 1 <= i <= k + 1 ==> rows[i] == tail[i - 1];
      k + 1
  }

  /**
   The data records, read in order. Reading succeeds exactly when every
   record parses, and then gives one todo per record in file order;
   otherwise the error names the first record that does not parse.
   */
  function DecodeRows(codec: RowCodec, header: string, rows: seq<string>): (r: Result<seq<Todo>, ParseError>)
    ensures r.Ok? <==> forall i :: 0 <= i < |rows| ==> Parses(codec, header, rows[i])
    ensures r.Ok? ==> |r.value| == |rows|
    ensures r.Ok? ==> forall i :: 0 <= i < |rows| ==> DecodeTodo(codec, header, rows[i]) == Some(r.value[i])
    ensures r.Err? ==> r.error.BadRow? && r.error.row < |rows| && !Parses(codec, header, rows[r.error.row])
    ensures r.Err? ==> forall i :: 0 <= i < r.error.row ==> Parses(codec, header, rows[i])
  {
    if forall i :: 0 <= i < |rows| ==> Parses(codec, header, rows[i]) then
      Ok(seq(|rows|, i requires 0 <= i < |rows| && Parses(codec, header, rows[i]) =>
               FromFields(codec.read(header, rows[i]).value)))
    else
      Err(BadRow(FirstBadRow(codec, header, rows)))
  }

  /** Reading the whole file (`gocsv.UnmarshalFile`): the header record, then the data records. */
  function ParseFile(codec: RowCodec, records: seq<string>): Result<seq<Todo>, ParseError>
  {
    if records == [] then Err(EmptyFile)
    else if !codec.header(records[0]) then Err(BadHeader)
    else DecodeRows(codec, records[0], records[1..])
  }

  /** A file whose only record the header check rejects fails to read, data records or not. */
  lemma HeaderChecked(codec: RowCodec, records: seq<string>)
    requires records != [] && !codec.header(records[0])
    ensures ParseFile(codec, records) == Err(BadHeader)
    ensures ParseFile(codec, records[..1]) == Err(BadHeader)
  {
  }

  /** Writing the whole file (`gocsv.MarshalFile`): the header, then one record per todo in order. */
  function WriteFile(codec: RowCodec, todos: seq<Todo>): seq<string>
  {
    [HEADER] + seq(|todos|, i requires 0 <= i < |todos| => EncodeTodo(codec, todos[i]))
  }

  /** The file after `GetTodoFile`: an empty file gets the header record. */
  function Opened(records: seq<string>): seq<string>
  {
    if records == [] then [HEADER] else records
  }

  /** The line `PrintTodos` prints for the todo at position `i`. */
  function EntryOf(i: nat, t: Todo): Line
  {
    Entry(i, t.name, t.tags, t.isCompleted)
  }

  /** `out` lists `todos`: one line per todo, in order, line `i` showing index `i`. */
  predicate ListsInOrder(out: seq<Line>, todos: seq<Todo>)
  {
    |out| == |todos| && forall i :: 0 <= i < |todos| ==> out[i] == EntryOf(i, todos[i])
  }

  /** A todo written and read back keeps its name, times and flag; tags survive iff canonical. */
  lemma DecodeEncode(codec: RowCodec, t: Todo)
    requires Lawful(codec)
    ensures DecodeTodo(codec, HEADER, EncodeTodo(codec, t)) == Some(Normalise(t))
    ensures DecodeTodo(codec, HEADER, EncodeTodo(codec, t)) == Some(t) <==> Canonical(t.tags)
  {
    assert codec.read(HEADER, codec.write(ToFields(t))) == Some(ToFields(t));
    RoundTrip(t.tags);
  }

  /** A todo that was read from a file is unchanged by normalising it. */
  lemma DecodedIsNormal(codec: RowCodec, header: string, row: string, t: Todo)
    requires DecodeTodo(codec, header, row) == Some(t)
    ensures Normalise(t) == t
  {
    NormaliseIdempotent(t.tags);
  }

  /** The data records of a written file are the encoded todos, in order. */
  lemma WrittenRows(codec: RowCodec, todos: seq<Todo>)
    ensures |WriteFile(codec, todos)| == |todos| + 1
    ensures WriteFile(codec, todos)[0] == HEADER
    ensures forall i :: 0 <= i < |todos| ==> WriteFile(codec, todos)[1..][i] == EncodeTodo(codec, todos[i])
  {
  }

  /** Reading back a file written from `todos` gives every todo in order, each with its tags normalised. */
  lemma ReadBack(codec: RowCodec, todos: seq<Todo>)
    requires Lawful(codec)
    ensures ParseFile(codec, WriteFile(codec, todos)) == Ok(seq(|todos|, i requires 0 <= i < |todos| => Normalise(todos[i])))
  {
    var rows := WriteFile(codec, todos)[1..];
    WrittenRows(codec, todos);
    forall i | 0 <= i < |rows|
      ensures codec.read(HEADER, rows[i]) == Some(ToFields(todos[i]))
    {
      assert rows[i] == codec.write(ToFields(todos[i]));
    }
    var r := DecodeRows(codec, HEADER, rows);
    assert r.Ok?;
    forall i | 0 <= i < |todos| ensures r.value[i] == Normalise(todos[i]) {
      assert DecodeTodo(codec, HEADER, rows[i]) == Some(FromFields(ToFields(todos[i])));
    }
    assert r.value == seq(|todos|, i requires 0 <= i < |todos| => Normalise(todos[i]));
    assert ParseFile(codec, WriteFile(codec, todos)) == r;
  }

  /** The round-trip law of the store: todos whose tag lists are canonical come back as they were written. */
  lemma ReadBackCanonical(codec: RowCodec, todos: seq<Todo>)
    requires Lawful(codec)
    requires forall i :: 0 <= i < |todos| ==> Canonical(todos[i].tags)
    ensures ParseFile(codec, WriteFile(codec, todos)) == Ok(todos)
  {
    ReadBack(codec, todos);
    forall i | 0 <= i < |todos| ensures Normalise(todos[i]) == todos[i] {
      RoundTrip(todos[i].tags);
    }
    assert seq(|todos|, i requires 0 <= i < |todos| => Normalise(todos[i])) == todos;
  }

  /**
   The rewrite done by AddTodo loses nothing: if the file read as `todos`,
   the rewritten file reads as `todos` followed by the new todo (normalised).
   */
  lemma AppendKeepsRecords(codec: RowCodec, records: seq<string>, todos: seq<Todo>, t: Todo)
    requires Lawful(codec)
    requires ParseFile(codec, records) == Ok(todos)
    ensures ParseFile(codec, WriteFile(codec, todos + [t])) == Ok(todos + [Normalise(t)])
  {
    var all := todos + [t];
    ReadBack(codec, all);
    forall i | 0 <= i < |todos| ensures Normalise(all[i]) == todos[i] {
      DecodedIsNormal(codec, records[0], records[1..][i], todos[i]);
    }
    assert seq(|all|, i requires 0 <= i < |all| => Normalise(all[i])) == todos + [Normalise(t)];
  }

  /** `PrintTodos` (main.go:68-73): one line per todo, in order, with its index. */
  method PrintTodos(todos: seq<Todo>) returns (out: seq<Line>)
    ensures ListsInOrder(out, todos)
  {
    out := [];
    for idx := 0 to |todos|
      invariant |out| == idx
      invariant forall i :: 0 <= i < idx ==> out[i] == EntryOf(i, todos[i])
    {
      var todo := todos[idx];
      out := out + [Entry(idx, todo.name, todo.tags, todo.isCompleted)];
    }
  }

  /** The `todos.csv` file, as the sequence of its CSV records. */
  class TodoFile {
    /** How the CSV library writes and reads one record. */
    const codec: RowCodec
    var records: seq<string>

    constructor (codec: RowCodec, records: seq<string>)
      ensures this.codec == codec && this.records == records
    {
      this.codec := codec;
      this.records := records;
    }

    /**
     `GetTodoFile` (main.go:47-66): an empty file gets exactly the header
     record; a file with content is left as it is.
     */
    method GetTodoFile()
      modifies this
      ensures old(records) == [] ==> records == [HEADER]
      ensures old(records) != [] ==> records == old(records)
      ensures records == Opened(old(records))
    {
      if |records| == 0 {
        records := records + [HEADER];
      }
    }

    /**
     `ListAllTodos` (main.go:75-98): opens the file and reads it; a parse
     error is returned (the program panics on it) before anything is printed.
     Otherwise an empty store prints only `No todo left`, and any other store
     one line per todo in file order.
     */
    method ListAllTodos() returns (res: Result<seq<Line>, ParseError>)
      modifies this
      ensures records == Opened(old(records))
      ensures ParseFile(codec, records).Err? ==> res == Err(ParseFile(codec, records).error)
      ensures ParseFile(codec, records).Ok? ==> res.Ok?
      ensures ParseFile(codec, records) == Ok([]) ==> res == Ok([NoTodoLeft])
      ensures ParseFile(codec, records).Ok? && ParseFile(codec, records).value != [] ==>
                ListsInOrder(res.value, ParseFile(codec, records).value)
    {
      GetTodoFile();
      var parsed := ParseFile(codec, records);
      if parsed.Err? {
        return Err(parsed.error);
      }
      var todoList := parsed.value;
      if |todoList| == 0 {
        return Ok([NoTodoLeft]);
      }
      var out := PrintTodos(todoList);
      res := Ok(out);
    }

    /**
     `AddTodo` (main.go:100-137): opens the file, reads its todos, appends a
     new one with the given name and tags that is not completed, and rewrites
     the whole file. A parse error is returned before the file is truncated,
     so the file keeps its content.
     */
    method AddTodo(name: string, tags: seq<string>, createdAt: Time, completedAt: Time)
      returns (err: Option<ParseError>, out: seq<Line>)
      modifies this
      ensures var start := Opened(old(records));
              ParseFile(codec, start).Err? ==>
                err == Some(ParseFile(codec, start).error) && out == [] && records == start
      ensures var start := Opened(old(records));
              ParseFile(codec, start).Ok? ==>
                err == None && out == [Added(name)] &&
                records == WriteFile(codec, ParseFile(codec, start).value + [Todo(name, tags, createdAt, completedAt, false)])
      ensures Lawful(codec) && err.Some? ==> records == old(records)
      ensures Lawful(codec) && err == None ==>
                ParseFile(codec, records) ==
                Ok(ParseFile(codec, Opened(old(records))).value + [Todo(name, ParseTags(MarshalText(tags)), createdAt, completedAt, false)])
    {
      GetTodoFile();
      var todo := Todo(name, tags, createdAt, completedAt, false);
      var todos: seq<Todo> := [];
      // The file is never empty here: GetTodoFile wrote the header.
      if |records| > 0 {
        var parsed := ParseFile(codec, records);
        if parsed.Err? {
          return Some(parsed.error), [];
        }
        todos := parsed.value;
      }
      todos := todos + [todo];
      // Truncate(0) and Seek(0, 0), then gocsv.MarshalFile.
      records := [];
      records := WriteFile(codec, todos);
      if Lawful(codec) {
        AppendKeepsRecords(codec, Opened(old(records)), todos[..|todos| - 1], todo);
        assert todos[..|todos| - 1] + [todo] == todos;
      }
      err, out := None, [Added(name)];
    }
  }
}
