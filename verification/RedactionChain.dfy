/** The log of anonymised customers, each record chained to the one before it. */
module RedactionChain {
  import opened Base64

  const GENESIS := "GENESIS_HASH_WORKSAUTO_KVKK_2026"
  const ID_LENGTH := 36
  const TIME_LENGTH := 24

  datatype Record = Record(
    customer: string,
    authoriser: string,
    time: string,
    legalRef: string,
    affectedLogs: seq<string>,
    previousHash: string,
    currentHash: string)

  /** Two uuids and an ISO time: their printed lengths are fixed. */
  predicate WellFormed(customer: string, authoriser: string, time: string) {
    && |customer| == ID_LENGTH && |authoriser| == ID_LENGTH && |time| == TIME_LENGTH
    && Ascii(customer) && Ascii(authoriser) && Ascii(time)
  }

  function Text(previous: string, customer: string, authoriser: string, time: string): string {
    previous + "-" + customer + "-" + authoriser + "-" + time
  }

  lemma TextIsAscii(previous: string, customer: string, authoriser: string, time: string)
    requires Ascii(previous) && WellFormed(customer, authoriser, time)
    ensures Ascii(Text(previous, customer, authoriser, time))
  {
  }

  lemma EncodingIsNotGenesis(text: string)
    requires Ascii(text)
    ensures Ascii(Encode(text)) && Encode(text) != GENESIS
  {
    EncodedAlphabet(text);
    assert GENESIS[7] == '_';
  }

  function Hash(previous: string, customer: string, authoriser: string, time: string): (hash: string)
    requires Ascii(previous) && WellFormed(customer, authoriser, time)
    ensures Ascii(hash) && hash != GENESIS
  {
    TextIsAscii(previous, customer, authoriser, time);
    EncodingIsNotGenesis(Text(previous, customer, authoriser, time));
    Encode(Text(previous, customer, authoriser, time))
  }

  /** The hash that record number k takes over: the newest one before it. */
  function TipBefore(log: seq<Record>, k: nat): string
    requires k <= |log|
  {
    if k == 0 then GENESIS else log[k - 1].currentHash
  }

  function Tip(log: seq<Record>): string {
    TipBefore(log, |log|)
  }

  ghost predicate Linked(log: seq<Record>, k: nat)
    requires k < |log|
  {
    var r := log[k];
    && WellFormed(r.customer, r.authoriser, r.time)
    && r.previousHash == TipBefore(log, k)
    && Ascii(r.previousHash)
    && r.currentHash == Hash(r.previousHash, r.customer, r.authoriser, r.time)
  }

  /** A log as serial anonymisations build it. */
  ghost predicate Chained(log: seq<Record>) {
    forall k :: 0 <= k < |log| ==> Linked(log, k)
  }

  lemma PrefixChained(log: seq<Record>)
    requires Chained(log) && log != []
    ensures Chained(log[..|log| - 1])
  {
    var front := log[..|log| - 1];
    forall k | 0 <= k < |front|
      ensures Linked(front, k)
    {
      assert Linked(log, k);
    }
  }

  /** Every link written out: the first record follows the genesis text, each later one the hash before it,
      and each hash decodes to the previous hash, the customer, the authoriser and the time, joined by
      hyphens. */
  lemma HashDecodes(log: seq<Record>, k: nat)
    requires Chained(log) && k < |log|
    ensures var r := log[k];
      && r.previousHash == (if k == 0 then "GENESIS_HASH_WORKSAUTO_KVKK_2026" else log[k - 1].currentHash)
      && Decode(r.currentHash) == r.previousHash + "-" + r.customer + "-" + r.authoriser + "-" + r.time
  {
    var r := log[k];
    assert Linked(log, k);
    TextIsAscii(r.previousHash, r.customer, r.authoriser, r.time);
    DecodeEncode(Text(r.previousHash, r.customer, r.authoriser, r.time));
  }

  /** What a record says about who was redacted, by whom, when, and after what. */
  predicate SameRedaction(a: Record, b: Record) {
    && a.customer == b.customer && a.authoriser == b.authoriser && a.time == b.time
    && a.previousHash == b.previousHash && a.currentHash == b.currentHash
  }

  ghost predicate SameHistory(a: seq<Record>, b: seq<Record>) {
    |a| == |b| && forall k :: 0 <= k < |a| ==> SameRedaction(a[k], b[k])
  }

  /** A grown chain never has the genesis text as its tip. */
  lemma TipIsAscii(log: seq<Record>)
    requires Chained(log)
    ensures Ascii(Tip(log)) && (log != [] ==> Tip(log) != GENESIS)
  {
    if log != [] {
      assert Linked(log, |log| - 1);
    }
  }

  /** With fixed-length ids and times the hashed text splits in one way only. */
  lemma TextSplits(p: string, c: string, a: string, t: string)
    requires WellFormed(c, a, t)
    ensures var s := Text(p, c, a, t);
      var n := |s|;
      && n == |p| + 99
      && s[..n - 99] == p && s[n - 98..n - 62] == c && s[n - 61..n - 25] == a && s[n - 24..] == t
  {
    var s := Text(p, c, a, t);
    assert s == p + ("-" + c + "-" + a + "-" + t);
    assert s == (p + "-") + (c + ("-" + a + "-" + t));
    assert s == (p + "-" + c + "-") + (a + ("-" + t));
  }

  lemma HashDetermines(p: string, c: string, a: string, t: string, p': string, c': string, a': string, t': string)
    requires Ascii(p) && Ascii(p') && WellFormed(c, a, t) && WellFormed(c', a', t')
    requires Hash(p, c, a, t) == Hash(p', c', a', t')
    ensures p == p' && c == c' && a == a' && t == t'
  {
    TextIsAscii(p, c, a, t);
    TextIsAscii(p', c', a', t');
    EncodeInjective(Text(p, c, a, t), Text(p', c', a', t'));
    TextSplits(p, c, a, t);
    TextSplits(p', c', a', t');
  }

  /** The tip commits to the whole history: two chains have the same tip exactly when they agree
      record by record on previous hash, customer, authoriser and time. */
  lemma {:induction false} TipCommitsToHistory(a: seq<Record>, b: seq<Record>)
    requires Chained(a) && Chained(b)
    ensures Tip(a) == Tip(b) <==> SameHistory(a, b)
  {
    TipIsAscii(a);
    TipIsAscii(b);
    if a != [] && b != [] {
      var m, n := |a| - 1, |b| - 1;
      PrefixChained(a);
      PrefixChained(b);
      TipCommitsToHistory(a[..m], b[..n]);
      LastLink(a, b);
      if Tip(a) == Tip(b) {
        ExtendHistory(a, b);
      }
    }
  }

  lemma LastLink(a: seq<Record>, b: seq<Record>)
    requires Chained(a) && Chained(b) && a != [] && b != []
    ensures Tip(a) == Tip(b) ==> SameRedaction(a[|a| - 1], b[|b| - 1])
    ensures Tip(a) == Tip(b) ==> Tip(a[..|a| - 1]) == Tip(b[..|b| - 1])
  {
    var x, y := a[|a| - 1], b[|b| - 1];
    assert Linked(a, |a| - 1) && Linked(b, |b| - 1);
    if Tip(a) == Tip(b) {
      HashDetermines(x.previousHash, x.customer, x.authoriser, x.time,
                     y.previousHash, y.customer, y.authoriser, y.time);
    }
  }

  lemma ExtendHistory(a: seq<Record>, b: seq<Record>)
    requires a != [] && b != [] && SameHistory(a[..|a| - 1], b[..|b| - 1])
    requires SameRedaction(a[|a| - 1], b[|b| - 1])
    ensures SameHistory(a, b)
  {
    forall k | 0 <= k < |a|
      ensures SameRedaction(a[k], b[k])
    {
      if k < |a| - 1 {
        assert a[k] == a[..|a| - 1][k] && b[k] == b[..|b| - 1][k];
      }
    }
  }

  /** The tip says nothing about the legal reference or the affected audit entries: a record whose
      two were rewritten afterwards leaves a valid chain with the same tip. */
  lemma TipIgnoresLegalReference(log: seq<Record>, k: nat, legalRef: string, affectedLogs: seq<string>)
    requires Chained(log) && k < |log|
    ensures var rewritten := log[k := log[k].(legalRef := legalRef, affectedLogs := affectedLogs)];
      Chained(rewritten) && Tip(rewritten) == Tip(log)
  {
    var rewritten := log[k := log[k].(legalRef := legalRef, affectedLogs := affectedLogs)];
    forall i | 0 <= i < |rewritten|
      ensures Linked(rewritten, i)
    {
      assert Linked(log, i);
    }
  }

  class RedactionLog {
    var records: seq<Record>

    constructor ()
      ensures records == [] && Chained(records)
    {
      records := [];
    }

    /** Appends the record of one anonymisation. */
    method Append(customer: string, authoriser: string, time: string, legalRef: string, affectedLogs: seq<string>)
      requires Chained(records) && WellFormed(customer, authoriser, time)
      modifies this
      ensures Chained(records)
      ensures |records| == |old(records)| + 1 && records[..|old(records)|] == old(records)
      ensures var r := records[|old(records)|];
        && (r.customer, r.authoriser, r.time) == (customer, authoriser, time)
        && (r.legalRef, r.affectedLogs) == (legalRef, affectedLogs)
    {
      TipIsAscii(records);
      ghost var before := records;
      var previousHash := if |records| > 0 then records[|records| - 1].currentHash else GENESIS;
      var currentHash := Hash(previousHash, customer, authoriser, time);
      records := records + [Record(customer, authoriser, time, legalRef, affectedLogs, previousHash, currentHash)];
      forall k | 0 <= k < |records|
        ensures Linked(records, k)
      {
        if k < |before| {
          assert Linked(before, k);
        }
      }
    }
  }
}
