/**
 Runs of the program: on a store that starts out missing and for every
 lawful CSV codec, what the user sees after one or two `create` commands and
 an `ls`; and, for any store and any codec, what `create` without a name does.
 */
module Scenarios {
  import opened Wrappers
  import opened Tags
  import opened Store
  import opened Cli

  /** `ls` on a missing store creates it with the header only and prints `No todo left`. */
  method ListFreshStore(codec: RowCodec) returns (out: seq<Line>, records: seq<string>)
    requires Lawful(codec)
    ensures out == [NoTodoLeft]
    ensures records == [HEADER]
  {
    var file := new TodoFile(codec, []);
    var status;
    out, status := Run(file, ["ls"], Flags("", []), 0, 0);
    records := file.records;
  }

  /**
   `create --name <name> --tags <a>,<b>` on a missing store, as in
   `create --name "Buy milk" --tags groceries,errand`: the store gains one
   record holding that name and the two tags, and the listing that follows
   shows exactly that todo, not completed.
   */
  method CreateWithTwoTags(codec: RowCodec, name: string, a: string, b: string, now: Time, tomorrow: Time)
    returns (out: seq<Line>, stored: seq<Todo>)
    requires Lawful(codec)
    requires name != "" && ',' !in a && ',' !in b
    ensures stored == [Todo(name, [a, b], now, tomorrow, false)]
    ensures out == [Added(name), Entry(0, name, [a, b], false)]
  {
    var file := new TodoFile(codec, []);
    TwoTags(a, b);
    var status;
    out, status := Run(file, ["create"], Flags(name, [a + "," + b]), now, tomorrow);
    ReadBackCanonical(codec, [Todo(name, [a, b], now, tomorrow, false)]);
    stored := ParseFile(codec, file.records).value;
  }

  /** The concrete run `create --name "Buy milk" --tags groceries,errand` on a missing store. */
  method CreateBuyMilk(codec: RowCodec, now: Time, tomorrow: Time) returns (out: seq<Line>)
    requires Lawful(codec)
    ensures out == [Added("Buy milk"), Entry(0, "Buy milk", ["groceries", "errand"], false)]
  {
    var stored;
    out, stored := CreateWithTwoTags(codec, "Buy milk", "groceries", "errand", now, tomorrow);
  }

  /** One `--tags a,b` value gives the two tags `a` and `b`, and they survive the store. */
  lemma TwoTags(a: string, b: string)
    requires ',' !in a && ',' !in b
    ensures FlagTags([a + "," + b]) == [a, b]
    ensures ParseTags(MarshalText([a, b])) == [a, b]
  {
    SplitFirstPiece(a, b);
    assert [a + "," + b][..0] == [];
    RoundTrip([a, b]);
  }

  /** `create --name Task1`, then `create --name Task2`: the first listing shows Task1 at 0, the last Task1 at 0 and Task2 at 1. */
  method CreateTwo(codec: RowCodec, t1: Time, t2: Time, t3: Time, t4: Time) returns (first: seq<Line>, out: seq<Line>)
    requires Lawful(codec)
    ensures first == [Added("Task1"), Entry(0, "Task1", [], false)]
    ensures out == [Added("Task2"), Entry(0, "Task1", [], false), Entry(1, "Task2", [], false)]
  {
    var file := new TodoFile(codec, []);
    var status;
    first, status := Run(file, ["create"], Flags("Task1", []), t1, t2);
    ReadBackCanonical(codec, [Todo("Task1", [], t1, t2, false)]);
    out, status := Run(file, ["create"], Flags("Task2", []), t3, t4);
  }

  /** `create` without `--name` leaves the store as it was and exits with status 1. */
  method CreateWithoutName(codec: RowCodec, records: seq<string>, tagValues: seq<string>)
    returns (status: Status, after: seq<string>)
    ensures status == Exited(1)
    ensures after == records
  {
    var file := new TodoFile(codec, records);
    var out;
    out, status := Run(file, ["create"], Flags("", tagValues), 0, 0);
    after := file.records;
  }
}
