/** The research journal: the entry built from a report, the optional AI note,
    and the newest-first list of entries with its de-duplication on the
    timestamp and its length cap. */
module Journal {
  import opened Common
  import opened Signals
  import opened TradeIdeas
  import opened AiRequests
  import opened Aggregation

  /** One of the at most five picks an entry remembers. */
  datatype JournalPick = JournalPick(ticker: string, score: real, direction: Direction, aiSummary: Option<string>)

  /** A journal entry. The title and summary lines are text made from the five
      counts, which are kept instead; `aiJournal` is the note object returned by
      the provider, as its JSON text. */
  datatype JournalEntry = JournalEntry(
    createdAt: string,
    opportunities: nat,
    earnings: nat,
    oversold: nat,
    scanned: nat,
    passed: nat,
    topPicks: seq<JournalPick>,
    aiJournal: Option<string>,
    model: Option<string>)

  /** How many picks an entry keeps. */
  const JOURNAL_PICKS := 5

  /** The cap used when the environment gives none that parses. */
  const DEFAULT_MAX_ENTRIES := 30

  /** `ai_sentiment.get("summary")`: the text, or nothing for a missing or null summary. */
  function SummaryText(s: Summary): (r: Option<string>)
    ensures r.Some? <==> s.Text?
    ensures r.Some? ==> r.value == s.text
  {
    match s
    case Text(t) => Some(t)
    case _ => None
  }

  function PickOf(o: Opportunity): JournalPick {
    JournalPick(o.signal.ticker, o.score, o.idea.direction, SummaryText(o.signal.sentiment.summary))
  }

  function PicksOf(os: seq<Opportunity>): (r: seq<JournalPick>)
    ensures |r| == |os|
    ensures forall i :: 0 <= i < |os| ==> r[i] == PickOf(os[i])
  {
    if os == [] then [] else [PickOf(os[0])] + PicksOf(os[1..])
  }

  /** `_build_basic_research_journal_entry`: stamped with the report's time, or
      `now` when that is empty; the report's counts; the first five top picks. */
  function BasicEntry(report: Report, now: string): (e: JournalEntry)
    ensures e.createdAt == (if report.generatedAt != "" then report.generatedAt else now)
    ensures e.opportunities == report.summary.opportunitiesFound && e.earnings == report.summary.earningsUpcoming
    ensures e.oversold == report.summary.oversoldCount && e.scanned == report.summary.totalScanned
    ensures e.passed == report.summary.passedFilters
    ensures |e.topPicks| == Min(JOURNAL_PICKS, |report.topPicks|)
    ensures forall i :: 0 <= i < |e.topPicks| ==>
              var o := report.topPicks[i];
              && e.topPicks[i].ticker == o.signal.ticker
              && e.topPicks[i].score == o.score
              && e.topPicks[i].direction == o.idea.direction
              && e.topPicks[i].aiSummary == SummaryText(o.signal.sentiment.summary)
              && (e.topPicks[i].aiSummary.Some? <==> o.signal.sentiment.summary.Text?)
    ensures e.aiJournal.None? && e.model.None?
  {
    var picks := PicksOf(PyPrefix(report.topPicks, JOURNAL_PICKS));
    JournalEntry(if report.generatedAt != "" then report.generatedAt else now,
                 report.summary.opportunitiesFound, report.summary.earningsUpcoming,
                 report.summary.oversoldCount, report.summary.totalScanned, report.summary.passedFilters,
                 picks, None, None)
  }

  /** What the environment says about the cap: nothing (or an empty string), an
      integer, or text `int` rejects. */
  datatype MaxEntriesSetting = Unset | Parsed(n: int) | Unparsable

  /** The cap: 30 unless the setting parses, and then whatever integer it holds
      (zero or a negative number included). */
  function MaxEntries(setting: MaxEntriesSetting): (m: int)
    ensures setting.Parsed? ==> m == setting.n
    ensures !setting.Parsed? ==> m == DEFAULT_MAX_ENTRIES
  {
    match setting
    case Parsed(n) => n
    case _ => DEFAULT_MAX_ENTRIES
  }

  /** The old head has the same timestamp: the scan was re-run. */
  predicate IsRerun(entries: seq<JournalEntry>, entry: JournalEntry) {
    entries != [] && entries[0].createdAt == entry.createdAt
  }

  /** The list before the cap: the entry replaces a head with its timestamp,
      else goes in front. */
  function WithEntry(entries: seq<JournalEntry>, entry: JournalEntry): seq<JournalEntry> {
    if IsRerun(entries, entry) then entries[0 := entry] else [entry] + entries
  }

  /** The journal after an update, as `entries[:max_entries]` of that list. */
  function JournalUpdated(entries: seq<JournalEntry>, entry: JournalEntry, maxEntries: int): seq<JournalEntry> {
    PyPrefix(WithEntry(entries, entry), maxEntries)
  }

  /** The list before the cap has the entry at its head and the older entries,
      all of them but a replaced head, behind it in their order. */
  lemma WithEntryShape(entries: seq<JournalEntry>, entry: JournalEntry)
    ensures var w := WithEntry(entries, entry);
            && w != [] && w[0] == entry
            && (IsRerun(entries, entry) ==> |w| == |entries| && w[1..] == entries[1..])
            && (!IsRerun(entries, entry) ==> |w| == |entries| + 1 && w[1..] == entries)
  {
    var w := WithEntry(entries, entry);
    if IsRerun(entries, entry) {
      assert w[1..] == entries[1..];
    } else {
      assert w[1..] == entries;
    }
  }

  /** The update keeps every entry it keeps unchanged and in order: after the
      head come the older entries (but a replaced head), cut to the cap. */
  lemma JournalKeepsOrder(entries: seq<JournalEntry>, entry: JournalEntry, maxEntries: int)
    ensures var r := JournalUpdated(entries, entry, maxEntries);
            var older := if IsRerun(entries, entry) then entries[1..] else entries;
            && |r| == PyStop(|older| + 1, maxEntries)
            && (r != [] ==> r[0] == entry && r[1..] <= older)
  {
    WithEntryShape(entries, entry);
    var w := WithEntry(entries, entry);
    var r := JournalUpdated(entries, entry, maxEntries);
    if r != [] {
      assert r[0] == w[0];
      assert r[1..] == w[1..][..|r| - 1];
    }
  }

  /** The new entry is at the head whenever the cap leaves anything: for any
      positive cap, and for a negative one that still leaves an entry. */
  lemma JournalHead(entries: seq<JournalEntry>, entry: JournalEntry, maxEntries: int)
    requires maxEntries >= 1 || (maxEntries < 0 && |entries| + maxEntries >= 1)
    ensures var r := JournalUpdated(entries, entry, maxEntries);
            r != [] && r[0] == entry
  {
    WithEntryShape(entries, entry);
  }

  /** A re-run with room to spare swaps the head and keeps the length; a new
      timestamp with room to spare grows the journal by one. */
  lemma JournalLength(entries: seq<JournalEntry>, entry: JournalEntry, maxEntries: int)
    requires |entries| < maxEntries
    ensures IsRerun(entries, entry) ==> JournalUpdated(entries, entry, maxEntries) == entries[0 := entry]
    ensures !IsRerun(entries, entry) ==> JournalUpdated(entries, entry, maxEntries) == [entry] + entries
  {
    WithEntryShape(entries, entry);
  }

  /** A non-negative cap bounds the journal, and an update adds at most one entry. */
  lemma JournalBounded(entries: seq<JournalEntry>, entry: JournalEntry, maxEntries: int)
    ensures maxEntries >= 0 ==> |JournalUpdated(entries, entry, maxEntries)| <= maxEntries
    ensures |JournalUpdated(entries, entry, maxEntries)| <= |entries| + 1
  {
    WithEntryShape(entries, entry);
  }

  /** Saving the same entry twice under a non-negative cap is the same as saving
      it once. A negative cap drops entries from the end on every update. */
  lemma JournalIdempotent(entries: seq<JournalEntry>, entry: JournalEntry, maxEntries: int)
    requires maxEntries >= 0
    ensures var once := JournalUpdated(entries, entry, maxEntries);
            JournalUpdated(once, entry, maxEntries) == once
  {
    WithEntryShape(entries, entry);
    var once := JournalUpdated(entries, entry, maxEntries);
    if once != [] {
      assert once[0] == entry;
      assert IsRerun(once, entry);
      assert once[0 := entry] == once;
    }
  }

  /** A negative cap shortens a re-run's journal each time it is saved. */
  lemma NegativeCapShrinks(entries: seq<JournalEntry>, entry: JournalEntry, maxEntries: int)
    requires maxEntries < 0 && IsRerun(entries, entry)
    ensures |JournalUpdated(entries, entry, maxEntries)| < |entries|
  {
    WithEntryShape(entries, entry);
  }

  /** The journal file's list of entries, newest first. */
  class ResearchJournal {
    var entries: seq<JournalEntry>

    constructor (loaded: seq<JournalEntry>)
      ensures entries == loaded
    {
      entries := loaded;
    }

    /** The de-duplication and the cap: replace a head with the same timestamp
        or insert at the front, then keep the first `maxEntries`. */
    method Append(entry: JournalEntry, maxEntries: int)
      modifies this
      ensures entries == JournalUpdated(old(entries), entry, maxEntries)
    {
      if entries != [] && entries[0].createdAt == entry.createdAt {
        entries := entries[0 := entry];
      } else {
        entries := [entry] + entries;
      }
      entries := entries[..PyStop(|entries|, maxEntries)];
    }
  }

  /** The entry with the AI note attached when the provider returned one. */
  function WithNote(entry: JournalEntry, note: Option<string>, model: string): (e: JournalEntry)
    ensures note.None? ==> e == entry
    ensures note.Some? ==> e == entry.(aiJournal := note, model := Some(model))
  {
    if note.Some? then entry.(aiJournal := note, model := Some(model)) else entry
  }

  /** `append_research_journal` after loading the list: the basic entry, the note
      from one journal call when a key is set and AI sentiment is on, then the
      update under the cap the environment gives. */
  method AppendResearchJournal(journal: ResearchJournal, report: Report, now: string, hasKey: bool, config: Config,
                               style: ApiStyle, model: string, setting: MaxEntriesSetting,
                               responsesServer: (nat, ResponsesBody) -> HttpReply<string>,
                               chatServer: ChatPayload -> HttpReply<string>)
    modifies journal
    ensures var basic := BasicEntry(report, now);
            var note := if hasKey && config.useAiSentiment
                        then ProviderAnswer(style, InitialBody(700), true, JournalChatPayload(model, 700),
                                            responsesServer, chatServer)
                        else None;
            journal.entries == JournalUpdated(old(journal.entries), WithNote(basic, note, model), MaxEntries(setting))
  {
    var entry := BasicEntry(report, now);
    if hasKey && config.useAiSentiment {
      var note := GenerateJson(hasKey, 700, style, model, responsesServer, chatServer);
      entry := WithNote(entry, note, model);
    }
    journal.Append(entry, MaxEntries(setting));
  }
}
