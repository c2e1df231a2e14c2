/** `TranscriptionHistoryManager`: the newest-first list of past
    transcriptions, and its plain-text export. */
module History {

  /** `UUID` and `Date` are opaque: only equality of ids and formatting of
      dates are used. */
  datatype Uuid = Uuid(value: nat)
  datatype Date = Date(secondsSinceReference: int)

  /** `TranscriptionHistoryItem`; `duration` is the `TimeInterval` in seconds. */
  datatype TranscriptionHistoryItem = TranscriptionHistoryItem(id: Uuid, text: string, timestamp: Date, duration: real)

  /** `removeAll { $0.id == id }`: the items with another id, in order. */
  function RemoveById(items: seq<TranscriptionHistoryItem>, id: Uuid): (r: seq<TranscriptionHistoryItem>)
    ensures |r| <= |items|
    ensures forall item :: item in r <==> item in items && item.id != id
  {
    if items == [] then []
    else (if items[0].id == id then [] else [items[0]]) + RemoveById(items[1..], id)
  }

  /** Removal works element by element, so the kept items keep their order. */
  lemma {:induction false} RemoveByIdAppend(a: seq<TranscriptionHistoryItem>, b: seq<TranscriptionHistoryItem>, id: Uuid)
    ensures RemoveById(a + b, id) == RemoveById(a, id) + RemoveById(b, id)
  {
    if a == [] {
      assert a + b == b;
    } else {
      assert (a + b)[0] == a[0];
      assert (a + b)[1..] == a[1..] + b;
      RemoveByIdAppend(a[1..], b, id);
    }
  }

  /** With no item carrying the id, nothing is removed. */
  lemma {:induction false} RemoveAbsentId(items: seq<TranscriptionHistoryItem>, id: Uuid)
    requires forall item :: item in items ==> item.id != id
    ensures RemoveById(items, id) == items
  {
    if items != [] {
      assert items == [items[0]] + items[1..];
      RemoveAbsentId(items[1..], id);
    }
  }

  /** Adding an item with a fresh id and then deleting it gives back the
      list as it was. */
  lemma AddThenDeleteRestores(items: seq<TranscriptionHistoryItem>, item: TranscriptionHistoryItem)
    requires forall other :: other in items ==> other.id != item.id
    ensures RemoveById([item] + items, item.id) == items
  {
    assert ([item] + items)[1..] == items;
    RemoveAbsentId(items, item.id);
  }

  /** Swift's decimal rendering of a non-negative `Int`. */
  function DecimalString(n: nat): string
    decreases n
  {
    if n < 10 then ["0123456789"[n]] else DecimalString(n / 10) + ["0123456789"[n % 10]]
  }

  function ExportHeader(generated: string): string {
    "FloatMic Transcription History\n" + "Generated on " + generated + "\n\n"
  }

  /** The block for the item numbered `n`. */
  function ExportEntry(n: nat, item: TranscriptionHistoryItem, formatDate: Date -> string): string {
    DecimalString(n) + ". " + formatDate(item.timestamp) + "\n" + item.text + "\n\n"
  }

  /** The blocks of `items`, numbered from `first`. */
  function ExportEntries(items: seq<TranscriptionHistoryItem>, first: nat, formatDate: Date -> string): string {
    if items == [] then ""
    else ExportEntry(first, items[0], formatDate) + ExportEntries(items[1..], first + 1, formatDate)
  }

  /** Numbering runs on across a split of the list. */
  lemma {:induction false} ExportEntriesAppend(a: seq<TranscriptionHistoryItem>, b: seq<TranscriptionHistoryItem>,
                                              first: nat, formatDate: Date -> string)
    ensures ExportEntries(a + b, first, formatDate)
         == ExportEntries(a, first, formatDate) + ExportEntries(b, first + |a|, formatDate)
  {
    if a == [] {
      assert a + b == b;
    } else {
      assert (a + b)[0] == a[0];
      assert (a + b)[1..] == a[1..] + b;
      ExportEntriesAppend(a[1..], b, first + 1, formatDate);
    }
  }

  /** The k-th item of the list (from 0) is exported as entry k + 1. */
  lemma ExportEntryNumbering(items: seq<TranscriptionHistoryItem>, k: nat, formatDate: Date -> string)
    requires k < |items|
    ensures ExportEntries(items, 1, formatDate)
         == ExportEntries(items[..k], 1, formatDate) + ExportEntry(k + 1, items[k], formatDate)
            + ExportEntries(items[k + 1..], k + 2, formatDate)
  {
    assert items == items[..k] + items[k..];
    ExportEntriesAppend(items[..k], items[k..], 1, formatDate);
    assert items[k..][1..] == items[k + 1..];
  }

  class TranscriptionHistoryManager {
    var transcriptions: seq<TranscriptionHistoryItem>

    /** `init()`: the persisted history when it decodes, otherwise empty. */
    constructor (persisted: seq<TranscriptionHistoryItem>)
      ensures transcriptions == persisted
    {
      transcriptions := persisted;
    }

    /** The item goes first; the others move down one place, in order. */
    method AddTranscription(item: TranscriptionHistoryItem)
      modifies this
      ensures transcriptions == [item] + old(transcriptions)
      ensures |transcriptions| == |old(transcriptions)| + 1
      ensures transcriptions[0] == item && transcriptions[1..] == old(transcriptions)
    {
      transcriptions := [item] + transcriptions;
    }

    /** Every item with the same id goes; the others stay, in order. */
    method DeleteTranscription(item: TranscriptionHistoryItem)
      modifies this
      ensures transcriptions == RemoveById(old(transcriptions), item.id)
    {
      transcriptions := RemoveById(transcriptions, item.id);
    }

    method ClearAllTranscriptions()
      modifies this
      ensures transcriptions == []
    {
      transcriptions := [];
    }

    /** `exportTranscriptions()`: `formatDate` is the medium-date,
        short-time `DateFormatter` and `now` the current date. */
    method ExportTranscriptions(formatDate: Date -> string, now: Date) returns (exportText: string)
      ensures exportText == ExportHeader(formatDate(now)) + ExportEntries(transcriptions, 1, formatDate)
      ensures transcriptions == [] ==> exportText == ExportHeader(formatDate(now))
    {
      exportText := "FloatMic Transcription History\n";
      exportText := exportText + "Generated on " + formatDate(now) + "\n\n";
      var index := 0;
      while index < |transcriptions|
        invariant 0 <= index <= |transcriptions|
        invariant exportText == ExportHeader(formatDate(now)) + ExportEntries(transcriptions[..index], 1, formatDate)
      {
        var item := transcriptions[index];
        ghost var before := exportText;
        ghost var line := DecimalString(index + 1) + ". " + formatDate(item.timestamp) + "\n";
        exportText := exportText + DecimalString(index + 1) + ". " + formatDate(item.timestamp) + "\n";
        assert exportText == before + line;
        exportText := exportText + item.text + "\n\n";
        assert exportText == before + (line + item.text + "\n\n");
        assert line + item.text + "\n\n" == ExportEntries([item], index + 1, formatDate);
        ExportEntriesAppend(transcriptions[..index], [item], 1, formatDate);
        assert transcriptions[..index + 1] == transcriptions[..index] + [item];
        index := index + 1;
      }
      assert transcriptions[..index] == transcriptions;
    }
  }
}
