/** The records that flow through the dashboard: the loosely-typed live-update
    payload, the canonical announcement, and the company a page is about.
    A payload field the server leaves out, sends as `null`, or sends as the
    empty string is the empty string here: every field is read with `||`,
    which treats those three alike. */
module Announcements {

  /** An inbound live-update message. Each field has one or two spellings on
      the wire (`symbol`/`Symbol`, `isin`/`ISIN`, ...); both are kept. */
  datatype Payload = Payload(
    corpId: string,        // corp_id
    id: string,
    dedupId: string,       // dedup_id
    companyname: string,
    company: string,
    symbol: string,
    symbolCap: string,     // Symbol
    category: string,
    categoryCap: string,   // Category
    date: string,
    createdAt: string,     // created_at
    aiSummary: string,     // ai_summary
    summary: string,
    isin: string,
    isinCap: string        // ISIN
  )

  /** The canonical announcement (`ProcessedAnnouncement`); the formatted
      `displayDate` is left to the rendering layer. */
  datatype Announcement = Announcement(
    id: string,
    company: string,
    ticker: string,
    category: string,
    date: string,
    summary: string,
    detailedContent: string,
    isin: string,
    sentiment: string,
    isNew: bool
  )

  datatype Company = Company(id: string, name: string, symbol: string, isin: string, industry: string)

  /** The ids of a list of announcements. */
  function IdsOf(xs: seq<Announcement>): set<string> {
    set i | 0 <= i < |xs| :: xs[i].id
  }
}
