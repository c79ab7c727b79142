/**
 * The logger factory of error-tracker.js: per-tag loggers whose records go to
 * the console and to an hourly file `<tag>-<ISO hour>.log`, each record
 * formatted as `<timestamp> [<level>] [<tag>]: <message>`.
 *
 * The logging backend itself (level filtering, transports, timestamp
 * generation) is not modelled: timestamps are parameters and the two sinks
 * are plain sequences of lines.
 */
module Logging {
  import opened Wrappers
  import opened Js
  import opened Text

  /** The levels the tracker's loggers are called with. */
  datatype Level = Error | Warn | Info

  function LevelName(level: Level): string {
    match level
    case Error => "error"
    case Warn => "warn"
    case Info => "info"
  }

  function LevelNamed(name: string): (r: Option<Level>)
    ensures r.Some? ==> LevelName(r.value) == name
  {
    if name == "error" then Some(Error)
    else if name == "warn" then Some(Warn)
    else if name == "info" then Some(Info)
    else None
  }

  /** A log record as the format pipeline sees it; `tag` is whatever the record carries. */
  datatype Record = Record(timestamp: string, level: Level, message: string, tag: Value)

  /** The tag a logger is created with: `getLogger(tag = 'default')` replaces only `undefined`. */
  const DefaultTag := "default"

  function LoggerTag(requested: Value): (tag: Value)
    ensures !tag.Undefined?
    ensures requested.Undefined? ==> tag == Str(DefaultTag)
    ensures !requested.Undefined? ==> tag == requested
  {
    if requested.Undefined? then Str(DefaultTag) else requested
  }

  /**
   * The logger's format step that sets the record's tag, overwriting any tag
   * given as metadata: the line formatted from the stamped record reads back
   * to the record's timestamp, level and message and to the logger's tag
   * alone, whatever the metadata tag was.
   */
  function StampTag(rec: Record, tag: Value): (r: Record)
    ensures r.tag == tag
    ensures r.timestamp == rec.timestamp && r.level == rec.level && r.message == rec.message
    ensures ' ' !in rec.timestamp && (Truthy(tag) ==> ']' !in tag.s) ==>
      ParseLine(FormatRecord(r)) == Some(LogLine(rec.timestamp, rec.level, ShownTag(tag), rec.message))
  {
    var r := rec.(tag := tag);
    if ' ' !in rec.timestamp && (Truthy(tag) ==> ']' !in tag.s) then
      LineRoundTrip(r);
      r
    else
      r
  }

  /** The bracketed tag, present only when the tag is truthy. */
  function TagPart(tag: Value): string {
    if Truthy(tag) then " [" + tag.s + "]" else ""
  }

  /** The printf format: `<timestamp> [<level>][ [<tag>]]: <message>`. */
  function FormatRecord(rec: Record): (line: string)
    ensures rec.timestamp + " [" + LevelName(rec.level) + "]" <= line
    ensures EndsWith(line, ": " + rec.message)
  {
    var line := rec.timestamp + " [" + LevelName(rec.level) + "]" + TagPart(rec.tag) + ": " + rec.message;
    assert line == (rec.timestamp + " [" + LevelName(rec.level) + "]") + (TagPart(rec.tag) + ": " + rec.message);
    line
  }

  /** The fields a formatted line shows; `tag` is None when the line has no tag bracket. */
  datatype LogLine = LogLine(timestamp: string, level: Level, tag: Option<string>, message: string)

  /** Reads a formatted line back: the inverse of FormatRecord. */
  function ParseLine(line: string): Option<LogLine> {
    match SplitOn(line, ' ')
    case None => None
    case Some((timestamp, rest)) =>
      match StripPrefix("[", rest)
      case None => None
      case Some(rest1) =>
        match SplitOn(rest1, ']')
        case None => None
        case Some((name, rest2)) =>
          match (LevelNamed(name), ParseTagAndMessage(rest2))
          case (Some(level), Some((tag, message))) => Some(LogLine(timestamp, level, tag, message))
          case _ => None
  }

  /** Reads what follows `[<level>]`: an optional ` [<tag>]`, then `: <message>`. */
  function ParseTagAndMessage(s: string): Option<(Option<string>, string)> {
    match StripPrefix(": ", s)
    case Some(message) => Some((None, message))
    case None =>
      match StripPrefix(" [", s)
      case None => None
      case Some(rest) =>
        match SplitOn(rest, ']')
        case None => None
        case Some((tag, rest1)) =>
          match StripPrefix(": ", rest1)
          case None => None
          case Some(message) => Some((Some(tag), message))
  }

  /** What a line shows for a record's tag. */
  function ShownTag(tag: Value): Option<string> {
    if Truthy(tag) then Some(tag.s) else None
  }

  /**
   * A formatted line determines the record it was made from: the timestamp, the
   * level, the message, and the tag exactly when the tag is truthy. An ISO
   * timestamp has no space, and a tag without `]` cannot be confused with the
   * message.
   */
  lemma LineRoundTrip(rec: Record)
    requires ' ' !in rec.timestamp
    requires Truthy(rec.tag) ==> ']' !in rec.tag.s
    ensures ParseLine(FormatRecord(rec))
         == Some(LogLine(rec.timestamp, rec.level, ShownTag(rec.tag), rec.message))
  {
    var name := LevelName(rec.level);
    var tail := TagPart(rec.tag) + ": " + rec.message;
    var rest1 := name + [']'] + tail;
    var rest := "[" + rest1;
    assert FormatRecord(rec) == rec.timestamp + [' '] + rest;
    SplitOnFirst(rec.timestamp, ' ', rest);
    StripPrefixOf("[", rest1);
    assert ']' !in name;
    SplitOnFirst(name, ']', tail);
    assert LevelNamed(name) == Some(rec.level);
    TagAndMessageRoundTrip(rec.tag, rec.message);
  }

  lemma TagAndMessageRoundTrip(tag: Value, message: string)
    requires Truthy(tag) ==> ']' !in tag.s
    ensures ParseTagAndMessage(TagPart(tag) + ": " + message) == Some((ShownTag(tag), message))
  {
    if Truthy(tag) {
      var rest1 := ": " + message;
      var rest := tag.s + [']'] + rest1;
      assert TagPart(tag) + ": " + message == " [" + rest;
      assert StripPrefix(": ", " [" + rest).None?;
      StripPrefixOf(" [", rest);
      SplitOnFirst(tag.s, ']', rest1);
      StripPrefixOf(": ", message);
    } else {
      StripPrefixOf(": ", message);
    }
  }

  /**
   * Every line a logger emits shows the logger's own tag, whatever tag the
   * caller passed as metadata: `[tag]` occurs in the line.
   */
  lemma StampedLineShowsLoggerTag(rec: Record, tag: Value)
    requires Truthy(tag)
    ensures Contains(FormatRecord(StampTag(rec, tag)), "[" + tag.s + "]")
  {
    var r := StampTag(rec, tag);
    var before := r.timestamp + " [" + LevelName(r.level) + "] ";
    var after := ": " + r.message;
    assert FormatRecord(r) == before + ("[" + tag.s + "]") + after;
    ContainsMiddle(before, "[" + tag.s + "]", after);
  }

  /** `getLogger()` logs under the tag `default`: its lines contain `[default]` and its file is `default-…`. */
  lemma DefaultLoggerLine(rec: Record, now: string)
    ensures Contains(FormatRecord(StampTag(rec, LoggerTag(Undefined))), "[" + DefaultTag + "]")
    ensures DefaultTag + "-" <= FileName(Render(LoggerTag(Undefined)), now)
  {
    var tag := LoggerTag(Undefined);
    assert tag == Str(DefaultTag);
    StampedLineShowsLoggerTag(rec, tag);
  }

  /**
   * What each kind of requested tag turns into: the tag a logger's lines show
   * and the start of its file name. `undefined` becomes `default`; `null` is
   * rendered `null` in the file name but is falsy, so its lines show no tag;
   * the empty string names the file `-<hour>.log` and shows no tag.
   */
  lemma LoggerTagCases(requested: Value, now: string)
    ensures requested.Undefined? ==>
      ShownTag(LoggerTag(requested)) == Some(DefaultTag)
      && DefaultTag + "-" <= FileName(Render(LoggerTag(requested)), now)
    ensures requested.Null? ==>
      ShownTag(LoggerTag(requested)) == None
      && "null-" <= FileName(Render(LoggerTag(requested)), now)
    ensures requested == Str("") ==>
      ShownTag(LoggerTag(requested)) == None
      && "-" <= FileName(Render(LoggerTag(requested)), now)
    ensures requested.Str? && requested.s != "" ==>
      ShownTag(LoggerTag(requested)) == Some(requested.s)
      && requested.s + "-" <= FileName(Render(LoggerTag(requested)), now)
  {
  }

  /** `toISOString().slice(0, 13)`: the date and the hour, e.g. `2024-05-01T13`. */
  function HourBucket(iso: string): string {
    if |iso| >= 13 then iso[..13] else iso
  }

  /** The log file name for a tag at a given time, inside the log directory. */
  function FileName(tag: string, iso: string): (name: string)
    ensures tag + "-" <= name
    ensures EndsWith(name, ".log")
  {
    tag + "-" + HourBucket(iso) + ".log"
  }

  /**
   * Two file names coincide exactly when the tags are equal and the times fall
   * in the same hour: any minutes and seconds share one file, and within one
   * hour distinct tags never share a file.
   */
  lemma SameFileIff(tag1: string, iso1: string, tag2: string, iso2: string)
    requires |iso1| >= 13 && |iso2| >= 13
    ensures FileName(tag1, iso1) == FileName(tag2, iso2)
        <==> tag1 == tag2 && iso1[..13] == iso2[..13]
  {
    var n1, n2 := FileName(tag1, iso1), FileName(tag2, iso2);
    if n1 == n2 {
      assert |n1| == |tag1| + 18;
      assert n1[..|tag1|] == tag1;
      assert n2[..|tag2|] == tag2;
      assert n1[|tag1| + 1..|tag1| + 14] == iso1[..13];
      assert n2[|tag2| + 1..|tag2| + 14] == iso2[..13];
    }
  }

  /** The console stream and the files of the log directory, as the lines appended to each. */
  class Sinks {
    var console: seq<string>
    var files: map<string, seq<string>>

    constructor ()
      ensures console == [] && files == map[]
    {
      console := [];
      files := map[];
    }

    /** The lines of a file; a file nobody wrote to yet is empty. */
    function FileLines(name: string): seq<string>
      reads this
    {
      if name in files then files[name] else []
    }
  }

  /** A logger made by `getLogger`: its tag and its file are fixed when it is created. */
  class Logger {
    const tag: Value
    const fileName: string
    const sinks: Sinks

    /** `getLogger(requested)` at time `now`; the hour bucket is taken here, not per record. */
    constructor (sinks: Sinks, requested: Value, now: string)
      ensures this.sinks == sinks
      ensures tag == LoggerTag(requested)
      ensures fileName == FileName(Render(tag), now)
    {
      this.sinks := sinks;
      tag := LoggerTag(requested);
      fileName := FileName(Render(LoggerTag(requested)), now);
    }

    /** The line this logger writes for a record, after its tag step. */
    function Emitted(rec: Record): string {
      FormatRecord(StampTag(rec, tag))
    }

    /**
     * `logger.<level>(message, { tag: meta })` at time `timestamp`: the same
     * line is appended to the console and to this logger's file.
     */
    method Log(level: Level, message: string, meta: Value, timestamp: string)
      modifies sinks
      ensures sinks.console == old(sinks.console) + [Emitted(Record(timestamp, level, message, meta))]
      ensures sinks.files
           == old(sinks.files)[fileName := old(sinks.FileLines(fileName))
                                           + [Emitted(Record(timestamp, level, message, meta))]]
    {
      var line := Emitted(Record(timestamp, level, message, meta));
      sinks.console := sinks.console + [line];
      sinks.files := sinks.files[fileName := sinks.FileLines(fileName) + [line]];
    }
  }
}
