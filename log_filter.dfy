/** The logging filter that suppresses every message containing one of a
    list of blacklisted patterns. */
module LogFilters {

  /** The `blacklist` argument: one pattern or a list of them. */
  datatype Blacklist = Pattern(pattern: string) | Patterns(patterns: seq<string>)

  /** A filter keeps its blacklist as a list. */
  datatype LogFilter = LogFilter(blacklist: seq<string>)

  /** The part of a logging record that the filter reads. */
  datatype LogRecord = LogRecord(msg: string)

  /** `pattern` occurs in `msg` starting at offset `i`. */
  predicate OccursAt(pattern: string, msg: string, i: int) {
    0 <= i <= |msg| - |pattern| && msg[i..i + |pattern|] == pattern
  }

  /** `pattern in msg` for strings: `pattern` occurs in `msg` at some offset. */
  ghost predicate Occurs(pattern: string, msg: string) {
    exists i :: OccursAt(pattern, msg, i)
  }

  /** The substring test, trying each offset from the left. */
  function Contains(msg: string, pattern: string): (r: bool)
    ensures r <==> Occurs(pattern, msg)
    decreases |msg|
  {
    if |pattern| > |msg| then false
    else if msg[..|pattern|] == pattern then
      assert OccursAt(pattern, msg, 0);
      true
    else
      var rest := Contains(msg[1..], pattern);
      assert rest <==> Occurs(pattern, msg) by {
        if rest {
          var i :| OccursAt(pattern, msg[1..], i);
          assert msg[1..][i..i + |pattern|] == msg[i + 1..i + 1 + |pattern|];
          assert OccursAt(pattern, msg, i + 1);
        }
        if Occurs(pattern, msg) {
          var i :| OccursAt(pattern, msg, i);
          assert i != 0;
          assert msg[1..][i - 1..i - 1 + |pattern|] == msg[i..i + |pattern|];
          assert OccursAt(pattern, msg[1..], i - 1);
        }
      }
      rest
  }

  /** `LogFilter(blacklist)`: a single pattern becomes a one-element list. */
  function NewLogFilter(blacklist: Blacklist): (f: LogFilter)
    ensures forall p :: p in f.blacklist <==>
      (if blacklist.Pattern? then p == blacklist.pattern else p in blacklist.patterns)
  {
    match blacklist
    case Pattern(p) => LogFilter([p])
    case Patterns(ps) => LogFilter(ps)
  }

  /** `all(pattern not in msg for pattern in patterns)`. */
  function NoneOccurs(patterns: seq<string>, msg: string): (pass: bool)
    ensures pass <==> forall p :: p in patterns ==> !Occurs(p, msg)
  {
    if patterns == [] then true
    else
      assert forall p :: p in patterns <==> p == patterns[0] || p in patterns[1..];
      !Contains(msg, patterns[0]) && NoneOccurs(patterns[1..], msg)
  }

  /** `filter(record)`: true, so the message is printed, exactly when no
      blacklisted pattern occurs in it. */
  function Filter(f: LogFilter, record: LogRecord): (pass: bool)
    ensures pass <==> forall p :: p in f.blacklist ==> !Occurs(p, record.msg)
  {
    NoneOccurs(f.blacklist, record.msg)
  }

  /** A filter built from one pattern behaves like one built from the list
      holding only that pattern. */
  lemma SinglePatternIsList(p: string, record: LogRecord)
    ensures Filter(NewLogFilter(Pattern(p)), record) == Filter(NewLogFilter(Patterns([p])), record)
    ensures Filter(NewLogFilter(Pattern(p)), record) <==> !Occurs(p, record.msg)
  {
  }

  /** With nothing blacklisted, every message passes. */
  lemma EmptyBlacklistPasses(record: LogRecord)
    ensures Filter(NewLogFilter(Patterns([])), record)
  {
  }

  /** Blacklisting more patterns can only turn a pass into a rejection. */
  lemma FilterMonotone(a: LogFilter, b: LogFilter, record: LogRecord)
    requires forall p :: p in a.blacklist ==> p in b.blacklist
    ensures Filter(b, record) ==> Filter(a, record)
  {
  }

  /** The empty pattern occurs in every message, so it rejects them all. */
  lemma EmptyPatternRejects(f: LogFilter, record: LogRecord)
    requires "" in f.blacklist
    ensures !Filter(f, record)
  {
    assert OccursAt("", record.msg, 0);
  }
}
