/** The transcription history kept by the application shell: a list of entries,
    newest first, with add, delete, clear-all, copy-all and export. Every update is
    a function of the previous list; ids, dates, times and the confirmation answer
    are passed in. */
module History {
  import opened Media
  import Text

  /** One committed transcription: `{ id, text, timestamp, date }`. */
  datatype Entry = Entry(id: int, text: string, timestamp: string, date: string)

  /** `!text.trim()`: the text is empty or white space only. */
  function IsBlank(text: string): (r: bool)
    ensures r <==> Text.AllSpace(text)
  {
    Text.TrimEmptyIff(text);
    Text.Trim(text) == ""
  }

  /** Every entry the shell ever adds has non-blank text. */
  predicate WellFormed(history: seq<Entry>)
  {
    forall i :: 0 <= i < |history| ==> !IsBlank(history[i].text)
  }

  /** `handleTranscription`: blank text leaves the list alone; otherwise one entry
      holding the text as received goes to the front and the old list follows it. */
  function HandleTranscription(history: seq<Entry>, text: string, id: int, timestamp: string, date: string): (r: seq<Entry>)
    ensures IsBlank(text) ==> r == history
    ensures !IsBlank(text) ==> |r| == |history| + 1 && r[0] == Entry(id, text, timestamp, date) && r[1..] == history
    ensures WellFormed(history) ==> WellFormed(r)
  {
    if IsBlank(text) then history else [Entry(id, text, timestamp, date)] + history
  }

  /** How many entries carry `id`. */
  function CountId(history: seq<Entry>, id: int): nat
  {
    if history == [] then 0 else (if history[0].id == id then 1 else 0) + CountId(history[1..], id)
  }

  /** `handleDelete`: `filter(item => item.id !== id)`. */
  function HandleDelete(history: seq<Entry>, id: int): (r: seq<Entry>)
    ensures forall e :: e in r <==> e in history && e.id != id
    ensures |r| + CountId(history, id) == |history|
    ensures (forall e :: e in history ==> e.id != id) ==> r == history
  {
    if history == [] then []
    else if history[0].id == id then HandleDelete(history[1..], id)
    else [history[0]] + HandleDelete(history[1..], id)
  }

  /** Deleting keeps the relative order of what stays: it works piecewise on any split of the list. */
  lemma {:induction false} DeleteKeepsOrder(a: seq<Entry>, b: seq<Entry>, id: int)
    ensures HandleDelete(a + b, id) == HandleDelete(a, id) + HandleDelete(b, id)
    decreases |a|
  {
    if a == [] {
      assert a + b == b;
    } else {
      var ab := a + b;
      assert ab[0] == a[0] && ab[1..] == a[1..] + b;
      DeleteKeepsOrder(a[1..], b, id);
      if a[0].id == id {
        calc {
          HandleDelete(ab, id);
          HandleDelete(a[1..] + b, id);
          HandleDelete(a[1..], id) + HandleDelete(b, id);
          HandleDelete(a, id) + HandleDelete(b, id);
        }
      } else {
        calc {
          HandleDelete(ab, id);
          [a[0]] + HandleDelete(a[1..] + b, id);
          [a[0]] + (HandleDelete(a[1..], id) + HandleDelete(b, id));
          ([a[0]] + HandleDelete(a[1..], id)) + HandleDelete(b, id);
          HandleDelete(a, id) + HandleDelete(b, id);
        }
      }
    }
  }

  /** Deleting the same id twice is deleting it once. */
  lemma DeleteIdempotent(history: seq<Entry>, id: int)
    ensures HandleDelete(HandleDelete(history, id), id) == HandleDelete(history, id)
  {
  }

  /** Deleting an entry just added under a fresh id gives back the list before the add. */
  lemma DeleteUndoesAdd(history: seq<Entry>, text: string, id: int, timestamp: string, date: string)
    requires forall e :: e in history ==> e.id != id
    ensures HandleDelete(HandleTranscription(history, text, id, timestamp, date), id) == history
  {
  }

  lemma DeletePreservesWellFormed(history: seq<Entry>, id: int)
    requires WellFormed(history)
    ensures WellFormed(HandleDelete(history, id))
  {
  }

  /** `handleClearAll`: the list becomes empty only when the user confirms. */
  function HandleClearAll(history: seq<Entry>, confirmed: bool): (r: seq<Entry>)
    ensures confirmed ==> r == []
    ensures !confirmed ==> r == history
  {
    if confirmed then [] else history
  }

  /** `transcriptions.map(t => t.text)`. */
  function Texts(history: seq<Entry>): (r: seq<string>)
    ensures |r| == |history|
    ensures forall i :: 0 <= i < |history| ==> r[i] == history[i].text
  {
    if history == [] then [] else [history[0].text] + Texts(history[1..])
  }

  const Paragraph := "\n\n"

  /** `handleCopyAll`: the text written to the clipboard, if any. */
  function HandleCopyAll(history: seq<Entry>): (r: Option<string>)
    ensures r.Some? ==> r.value != "" && r.value == Text.Join(Texts(history), Paragraph)
    ensures r.None? ==> Text.Join(Texts(history), Paragraph) == ""
  {
    var all := Text.Join(Texts(history), Paragraph);
    if all != "" then Some(all) else None
  }

  /** For a list the shell built, copy-all writes something exactly when the list is non-empty. */
  lemma CopyAllWritesIffNonEmpty(history: seq<Entry>)
    requires WellFormed(history)
    ensures HandleCopyAll(history).Some? <==> history != []
  {
  }

  /** Copy-all after adding an entry: the new text, a blank line, then what copy-all gave before. */
  lemma CopyAllAfterAdd(history: seq<Entry>, text: string, id: int, timestamp: string, date: string)
    requires WellFormed(history) && history != [] && !IsBlank(text)
    ensures HandleCopyAll(HandleTranscription(history, text, id, timestamp, date))
         == Some(text + Paragraph + HandleCopyAll(history).value)
  {
  }

  /** The rule under each exported entry: `'-'.repeat(50)`. */
  const Rule := Text.Repeat('-', 50)

  /** One exported entry: `[date time]`, the text, and the rule, on three lines. */
  function ExportBlock(e: Entry): (r: string)
    ensures |r| == |e.date| + |e.timestamp| + |e.text| + 55
    ensures r[0] == '[' && r[|e.date| + |e.timestamp| + 2..|e.date| + |e.timestamp| + 4] == "]\n"
    ensures r[1..|e.date| + 1] == e.date && r[|e.date| + 1] == ' '
    ensures r[|e.date| + 2..|e.date| + |e.timestamp| + 2] == e.timestamp
    ensures r[|r| - 51] == '\n'
    ensures r[|e.date| + |e.timestamp| + 4..|r| - 51] == e.text
    ensures Text.EndsWith(r, Rule)
  {
    "[" + e.date + " " + e.timestamp + "]\n" + e.text + "\n" + Rule
  }

  function Blocks(history: seq<Entry>): (r: seq<string>)
    ensures |r| == |history|
    ensures forall i :: 0 <= i < |history| ==> r[i] == ExportBlock(history[i])
  {
    if history == [] then [] else [ExportBlock(history[0])] + Blocks(history[1..])
  }

  /** `handleExport`: nothing for an empty list; otherwise the blocks joined by blank lines. */
  function HandleExport(history: seq<Entry>): (r: Option<string>)
    ensures r.None? <==> history == []
    ensures r.Some? ==> ExportBlock(history[0]) <= r.value
    ensures r.Some? ==> Text.EndsWith(r.value, Rule)
  {
    if |history| == 0 then None else Some(Text.Join(Blocks(history), Paragraph))
  }

  /** The exported text lists the entries in list order: the first block, a blank line, the rest. */
  lemma ExportCons(e: Entry, rest: seq<Entry>)
    requires rest != []
    ensures HandleExport([e] + rest) == Some(ExportBlock(e) + Paragraph + HandleExport(rest).value)
  {
  }

  /** A one-entry export is that entry's block alone. */
  lemma ExportSingle(e: Entry)
    ensures HandleExport([e]) == Some(ExportBlock(e))
  {
  }
}
