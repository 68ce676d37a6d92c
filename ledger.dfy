/**
 * The style-key ledger (chartStyles.txt): one line `key - description` per
 * style key ever met, appended to as dashboards are read
 * (scripts/agents/dashboardReader.js).
 */
module Ledger {
  import opened Text
  import opened Json
  import opened StyleText

  /** The key a ledger line records: the text before its first " - ". */
  function LeadingToken(line: string): string
  {
    var i := IndexOf(line, " - ", 0);
    if i < 0 then line else line[..i]
  }

  /** The keys recorded in a ledger text, line by line. */
  function Tokens(content: string): seq<string>
  {
    var lines := Split(content, '\n');
    seq(|lines|, i requires 0 <= i < |lines| => LeadingToken(lines[i]))
  }

  /** The keys one call records: those not yet seen, each once, in the order they come. */
  function Fresh(keys: seq<string>, seen: seq<string>): seq<string>
  {
    if keys == [] then []
    else if keys[0] in seen then Fresh(keys[1..], seen)
    else [keys[0]] + Fresh(keys[1..], seen + [keys[0]])
  }

  /** One ledger line. */
  function Line(key: string, description: string): string
  {
    key + " - " + description + "\n"
  }

  /** The ledger lines for `keys`, each described by `describe`. */
  function Entries(keys: seq<string>, describe: string -> string): string
  {
    if keys == [] then []
    else Entries(keys[..|keys| - 1], describe) + Line(keys[|keys| - 1], describe(keys[|keys| - 1]))
  }

  lemma FreshStep(keys: seq<string>, i: nat, seen: seq<string>)
    requires i < |keys|
    ensures keys[i] in seen ==> Fresh(keys[i..], seen) == Fresh(keys[i + 1..], seen)
    ensures keys[i] !in seen ==> Fresh(keys[i..], seen) == [keys[i]] + Fresh(keys[i + 1..], seen + [keys[i]])
  {
    assert keys[i..][1..] == keys[i + 1..];
  }

  lemma EntriesAppend(keys: seq<string>, k: string, describe: string -> string)
    ensures Entries(keys + [k], describe) == Entries(keys, describe) + Line(k, describe(k))
  {
    assert (keys + [k])[..|keys|] == keys;
  }

  predicate NoDuplicates(s: seq<string>)
  {
    forall i, j :: 0 <= i < j < |s| ==> s[i] != s[j]
  }

  /**
   * A call records exactly the keys it meets that were not already seen,
   * and each of them once.
   */
  lemma {:induction false} FreshRecordsUnseen(keys: seq<string>, seen: seq<string>)
    ensures forall k :: k in Fresh(keys, seen) <==> k in keys && k !in seen
    ensures NoDuplicates(Fresh(keys, seen))
  {
    if keys != [] {
      if keys[0] in seen {
        FreshRecordsUnseen(keys[1..], seen);
        assert keys == [keys[0]] + keys[1..];
      } else {
        FreshRecordsUnseen(keys[1..], seen + [keys[0]]);
        assert keys == [keys[0]] + keys[1..];
        var r := Fresh(keys, seen);
        assert r == [keys[0]] + Fresh(keys[1..], seen + [keys[0]]);
        forall i, j | 0 <= i < j < |r|
          ensures r[i] != r[j]
        {
          if i == 0 {
            assert r[j] in Fresh(keys[1..], seen + [keys[0]]);
          }
        }
      }
    }
  }

  /**
   * The ledger loop: walks `keys` in order and appends a line for each key
   * not yet seen, adding it to the seen keys; `onDisk` says whether the file
   * exists afterwards.
   */
  method AppendEntries(content: string, present: bool, keys: seq<string>, seen: seq<string>, describe: string -> string)
    returns (text: string, onDisk: bool)
    ensures text == content + Entries(Fresh(keys, seen), describe)
    ensures onDisk == (present || Fresh(keys, seen) != [])
  {
    text, onDisk := content, present;
    var known := seen;
    ghost var added: seq<string> := [];
    var i := 0;
    while i < |keys|
      invariant 0 <= i <= |keys|
      invariant Fresh(keys, seen) == added + Fresh(keys[i..], known)
      invariant text == content + Entries(added, describe)
      invariant onDisk == (present || added != [])
    {
      var k := keys[i];
      FreshStep(keys, i, known);
      if k !in known {
        assert added + Fresh(keys[i..], known) == (added + [k]) + Fresh(keys[i + 1..], known + [k]);
        var desc := describe(k);
        EntriesAppend(added, k, describe);
        text := text + Line(k, desc);
        onDisk := true;
        known := known + [k];
        added := added + [k];
      }
      i := i + 1;
    }
    assert keys[i..] == [];
    assert added == Fresh(keys, seen);
  }

  /** What the ledger file holds: whether it exists, and its text. */
  datatype LedgerState = LedgerState(present: bool, content: string)

  /** The keys already recorded: those of the file's lines, none when there is no file. */
  function SeenIn(st: LedgerState): seq<string>
  {
    if st.present then Tokens(st.content) else []
  }

  /**
   * One `updateChartStyles` call on the ledger at `path`: nothing without a
   * path, otherwise a line for each key of `meta` not yet recorded.
   */
  function Recorded(path: string, st: LedgerState, meta: Meta, describe: string -> string): (r: LedgerState)
    ensures st.content <= r.content
    ensures path == "" || Fresh(KeysOf(meta), SeenIn(st)) == [] ==> r == st
  {
    if path == "" then st
    else
      var added := Fresh(KeysOf(meta), SeenIn(st));
      assert Entries([], describe) == [];
      LedgerState(st.present || added != [], st.content + Entries(added, describe))
  }

  /** Several calls, in order. */
  function RecordedAll(path: string, st: LedgerState, metas: seq<Meta>, describe: string -> string): (r: LedgerState)
    ensures st.content <= r.content
    ensures path == "" ==> r == st
    decreases |metas|
  {
    if metas == [] then st
    else RecordedAll(path, Recorded(path, st, metas[0], describe), metas[1..], describe)
  }

  /** Recording two lists of metadata is recording the first, then the second. */
  lemma {:induction false} RecordedAllAppend(path: string, st: LedgerState, a: seq<Meta>, b: seq<Meta>, describe: string -> string)
    ensures RecordedAll(path, st, a + b, describe) == RecordedAll(path, RecordedAll(path, st, a, describe), b, describe)
    decreases |a|
  {
    if a == [] {
      assert a + b == b;
    } else {
      assert (a + b)[0] == a[0] && (a + b)[1..] == a[1..] + b;
      RecordedAllAppend(path, Recorded(path, st, a[0], describe), a[1..], b, describe);
    }
  }

  lemma RecordedAllSnoc(path: string, st: LedgerState, a: seq<Meta>, m: Meta, describe: string -> string)
    ensures RecordedAll(path, st, a + [m], describe) == Recorded(path, RecordedAll(path, st, a, describe), m, describe)
  {
    RecordedAllAppend(path, st, a, [m], describe);
    assert [m][1..] == [];
  }

  /** The ledger file: `path` is "" when no ledger is configured; `present` says whether the file exists. */
  class StyleLedger {
    const path: string
    var present: bool
    var content: string

    constructor (path: string, present: bool, content: string)
      ensures this.path == path && this.present == present && this.content == content
    {
      this.path := path;
      this.present := present;
      this.content := content;
    }

    function State(): LedgerState
      reads this
    {
      LedgerState(present, content)
    }

    /** The keys already recorded: those of the file's lines, none when there is no file. */
    function Seen(): seq<string>
      reads this
    {
      SeenIn(State())
    }

    /**
     * `updateChartStyles`: appends `key - description` for every key of
     * `meta` not yet recorded; does nothing when no ledger is configured.
     */
    method Record(meta: Meta, describe: string -> string)
      modifies this
      ensures path == "" ==> present == old(present) && content == old(content)
      ensures path != "" ==> content == old(content) + Entries(Fresh(KeysOf(meta), old(Seen())), describe)
      ensures path != "" ==> present == (old(present) || Fresh(KeysOf(meta), old(Seen())) != [])
      ensures State() == Recorded(path, old(State()), meta, describe)
    {
      if path == "" {
        return;
      }
      var text, onDisk := AppendEntries(content, present, KeysOf(meta), Seen(), describe);
      content, present := text, onDisk;
    }
  }
}
