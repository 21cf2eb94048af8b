/**
 The command dispatcher of the todo manager (`main`, main.go:139-173): `ls`
 lists the store, `create` adds a todo and lists, anything else does nothing.
 Parsing the `create` flags is the flag package's work; its result comes in
 as `Flags`.
 */
module Cli {
  import opened Wrappers
  import opened Tags
  import opened Store

  /** The value of `--name` and every `--tags` value, in command-line order. */
  datatype Flags = Flags(name: string, tagValues: seq<string>)

  /** How the process ends: `os.Exit(code)`, or a panic carrying an error. */
  datatype Status = Exited(code: int) | Panicked(cause: ParseError)

  /** The tags `createCmd.Var(&tags, …)` collects: `Set` applied to each value in turn. */
  function FlagTags(values: seq<string>): seq<string>
  {
    if values == [] then []
    else FlagTags(values[..|values| - 1]) + Split(values[|values| - 1])
  }

  /** The collected tags are the pieces of every value in turn: none holds a comma, and each value adds at least one. */
  lemma {:induction false} FlagTagsPieces(values: seq<string>)
    ensures CommaFree(FlagTags(values))
    ensures |FlagTags(values)| >= |values|
  {
    if values != [] {
      var init := values[..|values| - 1];
      FlagTagsPieces(init);
      var r := FlagTags(values);
      assert forall i :: |FlagTags(init)| <= i < |r| ==>
        r[i] == Split(values[|values| - 1])[i - |FlagTags(init)|];
    }
  }

  /**
   The tags of `create` come back unchanged from the store, except when the
   only `--tags` value is empty: that stores one empty tag, which reads back
   as no tags.
   */
  lemma FlagTagsSurvive(values: seq<string>)
    ensures ParseTags(MarshalText(FlagTags(values))) == FlagTags(values) <==> values != [""]
  {
    FlagTagsPieces(values);
    RoundTrip(FlagTags(values));
    if |values| == 1 {
      assert values[..0] == [];
      if FlagTags(values) == [""] {
        assert values[0] == Join(Split(values[0]));
      }
    }
  }

  /** The listing `ListAllTodos` prints for `todos`. */
  predicate IsListing(out: seq<Line>, todos: seq<Todo>)
  {
    if todos == [] then out == [NoTodoLeft] else ListsInOrder(out, todos)
  }

  /**
   `main`. No argument: an error message and exit 1. `ls`: the listing, or a
   panic on a parse error. `create` with an empty `--name`: an error message,
   the usage and exit 1, and the store is not touched. `create` with a name:
   AddTodo, then the listing of the updated store. Any other command: nothing.
   */
  method Run(file: TodoFile, args: seq<string>, flags: Flags, createdAt: Time, completedAt: Time)
    returns (out: seq<Line>, status: Status)
    modifies file
    ensures args == [] ==> out == [NoCommand] && status == Exited(1) && file.records == old(file.records)
    ensures args != [] && args[0] != "ls" && args[0] != "create" ==>
              out == [] && status == Exited(0) && file.records == old(file.records)
    ensures args != [] && args[0] == "ls" ==>
              file.records == Opened(old(file.records)) &&
              match ParseFile(file.codec, file.records)
              case Err(e) => out == [] && status == Panicked(e)
              case Ok(todos) => IsListing(out, todos) && status == Exited(0)
    ensures args != [] && args[0] == "create" && flags.name == "" ==>
              out == [NameRequired, CreateUsage] && status == Exited(1) && file.records == old(file.records)
    ensures args != [] && args[0] == "create" && flags.name != "" ==>
              match ParseFile(file.codec, Opened(old(file.records)))
              case Err(e) => out == [] && status == Panicked(e) && file.records == Opened(old(file.records))
              case Ok(todos) =>
                file.records == WriteFile(file.codec, todos + [Todo(flags.name, FlagTags(flags.tagValues), createdAt, completedAt, false)]) &&
                (Lawful(file.codec) ==>
                   status == Exited(0) && |out| > 0 && out[0] == Added(flags.name) &&
                   ListsInOrder(out[1..], todos + [Todo(flags.name, ParseTags(MarshalText(FlagTags(flags.tagValues))), createdAt, completedAt, false)]))
  {
    if |args| == 0 {
      return [NoCommand], Exited(1);
    }
    if args[0] == "ls" {
      var res := file.ListAllTodos();
      if res.Err? {
        return [], Panicked(res.error);
      }
      return res.value, Exited(0);
    } else if args[0] == "create" {
      var tags := new TagsVar();
      var i := 0;
      while i < |flags.tagValues|
        invariant 0 <= i <= |flags.tagValues|
        invariant tags.tags == FlagTags(flags.tagValues[..i])
        invariant file.records == old(file.records)
      {
        assert flags.tagValues[..i + 1][..i] == flags.tagValues[..i];
        var _ := tags.Set(flags.tagValues[i]);
        i := i + 1;
      }
      assert flags.tagValues[..i] == flags.tagValues;
      if flags.name == "" {
        return [NameRequired, CreateUsage], Exited(1);
      }
      var err, added := file.AddTodo(flags.name, tags.tags, createdAt, completedAt);
      if err.Some? {
        return added, Panicked(err.value);
      }
      var res := file.ListAllTodos();
      if res.Err? {
        return added, Panicked(res.error);
      }
      out, status := added + res.value, Exited(0);
    } else {
      out, status := [], Exited(0);
    }
  }
}
