/** The `Properties` container of the Alfresco bulk-import metadata format: a list of
    key/value entries created on the first addition. */
module BulkProperties {
  import opened Wrappers
  import opened Values

  /** One `<entry key="...">value</entry>`; Java lets both parts be `null`. */
  datatype Entry = Entry(key: Option<string>, value: Value)

  /** The entry list after appending `entry` to the current one, a missing list
      counting as empty. */
  function Appended(entries: Option<seq<Entry>>, entry: Entry): (r: seq<Entry>)
    ensures |r| == |entries.GetOr([])| + 1
    ensures r[..|r| - 1] == entries.GetOr([]) && r[|r| - 1] == entry
    ensures entries.None? ==> r == [entry]
  {
    entries.GetOr([]) + [entry]
  }

  /** Appending entries one at a time keeps them in insertion order after the
      existing ones. */
  function AppendedAll(entries: Option<seq<Entry>>, added: seq<Entry>): Option<seq<Entry>>
    decreases |added|
  {
    if added == [] then entries
    else AppendedAll(Some(Appended(entries, added[0])), added[1..])
  }

  lemma {:induction false} AppendedAllInOrder(entries: Option<seq<Entry>>, added: seq<Entry>)
    ensures added != [] ==> AppendedAll(entries, added) == Some(entries.GetOr([]) + added)
    ensures added == [] ==> AppendedAll(entries, added) == entries
    decreases |added|
  {
    if added != [] {
      var once := Appended(entries, added[0]);
      AppendedAllInOrder(Some(once), added[1..]);
      assert Some(once).GetOr([]) == once;
      if added[1..] == [] {
        assert added == [added[0]];
      }
      assert once + added[1..] == entries.GetOr([]) + added;
    }
  }

  class Properties {
    var entries: Option<seq<Entry>>

    constructor ()
      ensures entries == None
    {
      entries := None;
    }

    /** `addEntry(Entry)`: creates the list when it is missing, then appends. */
    method AddEntry(entry: Entry)
      modifies this
      ensures entries == Some(Appended(old(entries), entry))
    {
      if entries.None? {
        entries := Some([]);
      }
      entries := Some(entries.value + [entry]);
    }

    /** `addEntry(String, Serializable)`: appends an entry with exactly that key and value. */
    method AddKeyValue(key: Option<string>, value: Value)
      modifies this
      ensures entries == Some(Appended(old(entries), Entry(key, value)))
    {
      AddEntry(Entry(key, value));
    }
  }
}
