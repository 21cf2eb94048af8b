# Terminal-Todo: a verified model of the tag codec and the CSV todo store

Terminal-Todo is a command-line todo manager. It keeps its todos in
`todos.csv`: a header record `todo_name,tags,created_at,completed_at,is_completed`
followed by one record per todo. This project models, in Dafny, the logic of its
one source file `main.go`:

- **The `Tags` codec** (`tags.dfy`, module `Tags`). `String` and `MarshalText` join
  the labels with `,`; `UnmarshalText` splits the text on `,` but turns the empty
  text into no labels; `Set`, the hook the flag package calls once per `--tags`
  value, appends the pieces of its argument. `Join` and `Split` are Go's
  `strings.Join` and `strings.Split` with the `","` separator, as recursive
  functions. Because `strings.Split("", ",")` is `[""]`, `Set("")` adds one empty
  label while `UnmarshalText("")` gives none. The methods `Set` and
  `UnmarshalText` take a `*Tags` receiver and replace the list stored in the variable; they are methods of
  the class `TagsVar`.
- **The store** (`store.dfy`, module `Store`). The file is a `TodoFile` object
  whose `records` field is the sequence of its CSV records (empty for an empty
  file). `GetTodoFile` writes the header into an empty file. `ListAllTodos`
  reads all todos and prints `No todo left` or one indexed line per todo.
  `AddTodo` reads all todos, appends one, truncates the file and writes
  everything back. How a single record is written and read is the CSV library's
  business. It is modelled by `RowCodec`: a record writer, a record reader and a
  header check, given as inputs and not interpreted, with one assumed law
  (`Lawful`): the fixed header passes the check, and reading back a record
  written under it gives the same fields. The tags column
  goes through `MarshalText`/`UnmarshalText`. Reading back a written file
  therefore gives each todo with its tags *normalised*. A todo comes back
  unchanged exactly when its tag list is canonical: no label holds a comma, and
  the list is not the single empty label `[""]`.
- **The dispatcher** (`cli.dfy`, module `Cli`). `Run` is `main`: `ls`, `create`,
  and the error cases. The flag package's parsing of `create`'s flags is an
  input (`Flags`). The guard on an empty `--name` keeps the store untouched.
- **Example runs** (`scenarios.dfy`, module `Scenarios`): what one `create`
  with two tags, two `create`s in a row, and an `ls` do on a store that starts
  out missing, proved for every lawful codec; and what a `create` without a
  name does, proved for any store and any codec.

Printed output is a sequence of `Line` values. Each carries the data of one printed
line (index, name, tags, completion flag), not its formatted text. A panic is
`Status.Panicked(error)`, and `os.Exit(n)` is `Status.Exited(n)`. Timestamps are
opaque integers. AddTodo's two clock readings (the first, and a second one plus
one calendar day) are inputs. Nothing in the model says how they are
related.

## Model

| member | source | states |
|---|---|---|
| `Tags.Join` | main.go:16 | `strings.Join(t, ",")`: the empty text for no labels, the label itself for one, otherwise the labels with `,` between neighbours; used by `String` (main.go:16) and `MarshalText` (main.go:26) |
| `Tags.MarshalText` | main.go:25-27 | `Tags.MarshalText`: the labels joined with `,`, and never an error; its laws are `RoundTrip` and `ParseTags`'s contract |
| `Tags.Split` | main.go:20 | `strings.Split(s, ",")`: one more piece than `s` has commas, no piece holds a comma, and joining the pieces with `,` gives `s` back (split-then-join is the identity) |
| `Tags.SplitFirstPiece` | main.go:20 | splitting `a + "," + b` for comma-free `a` gives `a` followed by the pieces of `b` |
| `Tags.SplitJoin` | main.go:25-27 | for a non-empty list of comma-free labels, splitting their join gives the list back |
| `Tags.ParseTags` | main.go:29-37 | what `UnmarshalText` stores: no labels for the empty text, else exactly the comma-separated pieces; marshalling it gives the text back; never fails |
| `Tags.RoundTrip` | main.go:25-37 | `UnmarshalText(MarshalText(t)) == t` if and only if no label holds a comma and `t` is not `[""]`; `[""]` comes back as `[]` |
| `Tags.NormaliseIdempotent` | main.go:25-37 | passing tags through their text form a second time changes nothing |
| `Tags.TagsVar.constructor` | main.go:155 | a fresh `Tags` variable holds no labels |
| `Tags.TagsVar.String` | main.go:15-17 | `String` gives the same text as `MarshalText` for the same tags |
| `Tags.TagsVar.Set` | main.go:19-23 | the old labels stay as a prefix and exactly the pieces of `value` are appended (commas + 1 of them; one empty label for `""`); never fails |
| `Tags.TagsVar.UnmarshalText` | main.go:29-37 | replaces the labels by the pieces of the text (none for empty text); never fails |
| `Store.DecodeRows` | main.go:119 | reading the data records succeeds iff every record parses, then gives one todo per record in file order; otherwise the error names the first bad record |
| `Store.ParseFile` | main.go:86 | `gocsv.UnmarshalFile` (main.go:86, main.go:119): a file with no record is `EmptyFile`; a first record the header check rejects is `BadHeader`, so a header-only file can fail; otherwise the rest are read by `DecodeRows` under that header |
| `Store.HeaderChecked` | main.go:86 | a file whose first record the header check rejects fails to read with `BadHeader`, also when it holds no data record |
| `Store.WriteFile` | main.go:130 | `gocsv.MarshalFile`: the fixed header record, then one record per todo in order, written by the codec with the tags column through `MarshalText` |
| `Store.DecodeEncode` | main.go:39-45 | a todo written and read back keeps name, times and flag, its tags are normalised, and it comes back unchanged iff its tags are canonical |
| `Store.DecodedIsNormal` | main.go:29-37 | a todo that was read from the file is unchanged by normalisation |
| `Store.ReadBack` | main.go:130 | reading a written file back gives every todo in order, each with normalised tags |
| `Store.ReadBackCanonical` | main.go:130 | round-trip law: todos with canonical tags come back from the file unchanged |
| `Store.AppendKeepsRecords` | main.go:116-132 | after the rewrite the file reads as the old todos, in their order, followed by the new one |
| `Store.PrintTodos` | main.go:68-73 | one line per todo in order, line `i` carrying index `i` and the todo's name, tags and completion flag |
| `Store.TodoFile.GetTodoFile` | main.go:47-66 | an empty file afterwards holds exactly the header record; a non-empty file is unchanged |
| `Store.TodoFile.ListAllTodos` | main.go:75-98 | opens the file; a parse error is returned with nothing printed; an empty store prints only `No todo left`; else the listing in file order |
| `Store.TodoFile.AddTodo` | main.go:100-137 | on a parse error, returns it before the truncate and the file is as `GetTodoFile` left it (unchanged, for a lawful codec); otherwise the file is the header plus the old todos and one new uncompleted todo with the given name and tags, it reads back as old todos + new (normalised), and the confirmation is printed |
| `Cli.FlagTags` | main.go:155-159 | the tags the flag package collects into `tags`: `Set` applied to each `--tags` value in command-line order, i.e. the concatenation of their comma pieces |
| `Cli.FlagTagsPieces` | main.go:155-159 | the tags collected from `--tags` values hold no comma, and each value adds at least one |
| `Cli.FlagTagsSurvive` | main.go:155-167 | the tags of `create` survive the store unchanged unless the only `--tags` value is empty |
| `Cli.Run` | main.go:139-173 | no argument: error and exit 1; `ls`: the listing or a panic; `create` with empty `--name`: error, usage, exit 1, store unchanged; `create` with a name: AddTodo then the listing of the updated store; other commands: nothing, store unchanged |
| `Scenarios.ListFreshStore` | main.go:47-98 | for a lawful codec, `ls` on a missing store leaves just the header and prints only `No todo left` |
| `Scenarios.CreateWithTwoTags` | main.go:151-171 | `create --name n --tags a,b` on a missing store stores exactly one uncompleted todo `n` with tags `[a, b]` and lists it at index 0 |
| `Scenarios.CreateBuyMilk` | main.go:151-171 | `create --name "Buy milk" --tags groceries,errand` lists `Buy milk` with tags `groceries`, `errand` |
| `Scenarios.TwoTags` | main.go:19-37 | one `--tags a,b` value yields the tags `[a, b]`, which survive marshalling |
| `Scenarios.CreateTwo` | main.go:151-171 | `create Task1` lists Task1 at index 0; then `create Task2` lists Task1 at index 0 and Task2 at index 1 |
| `Scenarios.CreateWithoutName` | main.go:161-165 | `create` with an empty name exits with 1 and leaves the store untouched |

## Left out

- File operations (`os.OpenFile`, `Stat`, `WriteString`, `Seek`, `Truncate`, `Close`) are replaced by the `records` field. Their I/O errors are not modelled. This covers the errors `GetTodoFile` returns and the program panics on, the errors of `Truncate` and `Seek` that `AddTodo` ignores, the ignored `Stat` error, and write errors of `MarshalFile`. Read positions are not modelled either.
- The CSV library (`gocsv.UnmarshalFile`, `gocsv.MarshalFile`): its quoting and escaping are not visible, so one record's text is the uninterpreted `RowCodec`. The model claims nothing about how fields are quoted or escaped; `Lawful` does assume that every field value, commas included, survives a write and a read. One known exception: Go's `encoding/csv` reader turns CR LF inside a quoted field into LF, so a name holding `"\r\n"` does not come back as written. A file with no record at all is modelled as a parse error (`EmptyFile`). In the model no caller reaches it, because `GetTodoFile` runs first; in the program it can be reached, as the `Store.TodoFile.GetTodoFile` line below says. Whether a first record can serve as a header at all (it cannot, for one, when it holds a stray quote) is the codec's `header` check; a header record other than the fixed one that passes the check is passed to the codec's reader, and the model says nothing about how it reads under it. The model's error value only records which record failed, not the library's message. It assumes the library reports the first data record that fails; the library may instead report a record-level error (a wrong field count, bad quoting) in a later record before a field-conversion error in an earlier one, so only the panic's payload can differ, not whether reading fails.
- `time.Now()` and `AddDate`: the two clock readings of `AddTodo` are inputs. The `completionTime` argument of `AddTodo` is not used by its body, so the model's `AddTodo` does not take it. `main`'s own clock reading is dropped with it.
- The flag package: parsing `create`'s arguments, the `-h`/bad-flag exit, and the text of `createCmd.Usage()`. `Run` takes the parsed `--name` and the `--tags` values. It applies `TagsVar.Set` to each value in order, as the flag package does.
- Formatting: the `fmt.Printf` layout of a listing line and the `%v` rendering of `Tags`. A `Line` carries the line's data.
- Output streams: `out` is the program's standard output and standard error merged, in printing order. `CreateUsage` stands for the whole usage block that `createCmd.Usage()` writes to standard error. The panic trace on standard error is not modelled; a panic is only the `Panicked` status.
- Concurrent invocations, and a crash between the truncate and the rewrite, are not modelled.
- Store.TodoFile.AddTodo: its reads-back-unchanged property is stated at the level of parsed todos, not record text. A re-written record may differ textually from the one that was read, because the library may format it differently.
- Store.TodoFile.GetTodoFile: decides emptiness by counting records, while the program tests the file's byte size (main.go:57). A file whose bytes hold no CSV record, such as a single blank line, is not empty to the program, so no header is written; the CSV library then reports its empty-file error, `ls` panics and `create` fails with the file unchanged. The model maps such a file to no records, writes the header, and `ls` and `create` succeed.
- Text is `seq<char>`: Go strings are arbitrary bytes, and byte strings that are not valid UTF-8 (from the command line or the file) are not represented. Splitting and joining on `,` act the same on them, so only representability is lost.
- Store.TodoFile.AddTodo: "a parse error leaves the file unchanged" is promised for a lawful codec only. For a codec that rejects the fixed header, an empty file gets the header from `GetTodoFile` before reading fails; the contract states that file exactly.
