/**
 * A feed entry as the poller sees it, and its fingerprint `hash_entry`
 * (bot_service.py:225-229).
 */
module FeedEntry {
  import opened Maybe

  /**
   * The fields of a parsed entry that the bot reads: `title` and `link`
   * (absent keys are `None`), the values of the `content` list in order, and
   * the `summary` and `description` fields when present.
   */
  datatype Entry = Entry(
    title: Option<string>,
    link: Option<string>,
    contents: seq<string>,
    summary: Option<string>,
    description: Option<string>)

  /** The text that is hashed: the title then the link, a missing field read as "". */
  function HashInput(e: Entry): string {
    e.title.GetOr("") + e.link.GetOr("")
  }

  /**
   * `hash_entry(entry)`: the hex SHA-256 digest of the UTF-8 encoding of the
   * hash input; `sha` stands for encoding, hashing and hex formatting together.
   */
  function HashEntry(sha: string -> string, e: Entry): string {
    sha(HashInput(e))
  }

  /** The hash input splits back into title and link at the title's length. */
  lemma HashInputSplits(e: Entry)
    ensures var s := HashInput(e);
      |s| == |e.title.GetOr("")| + |e.link.GetOr("")|
      && s[..|e.title.GetOr("")|] == e.title.GetOr("")
      && s[|e.title.GetOr("")|..] == e.link.GetOr("")
  {
  }

  /** Entries with equal title-then-link texts get the same fingerprint, whatever their bodies. */
  lemma SameInputSameHash(sha: string -> string, a: Entry, b: Entry)
    requires a.title.GetOr("") + a.link.GetOr("") == b.title.GetOr("") + b.link.GetOr("")
    ensures HashEntry(sha, a) == HashEntry(sha, b)
  {
  }

  /** A missing title or link hashes as an empty one. */
  lemma MissingFieldIsEmpty(sha: string -> string, e: Entry)
    ensures HashEntry(sha, e.(title := None)) == HashEntry(sha, e.(title := Some("")))
    ensures HashEntry(sha, e.(link := None)) == HashEntry(sha, e.(link := Some("")))
  {
  }

  /** The boundary between title and link is lost: ("ab", "c") and ("a", "bc") collide. */
  lemma BoundaryCollision(sha: string -> string, body: seq<string>)
    ensures HashEntry(sha, Entry(Some("ab"), Some("c"), body, None, None))
         == HashEntry(sha, Entry(Some("a"), Some("bc"), body, None, None))
  {
    assert "ab" + "c" == "a" + "bc";
  }
}
