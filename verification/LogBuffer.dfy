/** The buffered logger: entries go into a buffer that grows, and from time to time to the file. The
    file followed by the buffer is always the log that one would have written entry by entry. */
module LogBuffer {
  import opened CStrings

  const MAX_LOG_SIZE := 131072
  const MEDIUM_LOG_SIZE := 16384
  const INITIAL_LOG_SIZE := 1024
  const TIMESTAMP_LEN := 26

  /** The size the buffer grows to: the product with 1.6180339887, cut to an integer. */
  function GrownSize(n: nat): (r: nat)
    ensures n >= 2 ==> r > n
    ensures r * 10000000000 <= n * 16180339887 < (r + 1) * 10000000000
  {
    n * 16180339887 / 10000000000
  }

  /** strncat takes at most this much of a message. */
  function Cut(message: string, len: nat): string {
    if len < |message| then message[..len] else message
  }

  /** The entries one after the other. */
  ghost function Flat(entries: seq<string>): string {
    if entries == [] then "" else Flat(entries[..|entries| - 1]) + entries[|entries| - 1]
  }

  lemma {:induction false} FlatSnoc(entries: seq<string>, entry: string)
    ensures Flat(entries + [entry]) == Flat(entries) + entry
  {
    assert (entries + [entry])[..|entries|] == entries;
  }

  /** An entry: on its way to the file the message is not cut. */
  function LoggedAs(message: string, len: nat, toFile: bool, timestamp: string): string {
    (if toFile then message else Cut(message, len)) + " " + timestamp
  }

  lemma {:induction false} LoggedWhole(entries: seq<string>, message: string, len: nat, toFile: bool, timestamp: string)
    ensures var logged := entries + [LoggedAs(message, len, toFile, timestamp)];
      && (len >= |message| ==> logged == entries + [message + " " + timestamp])
      && (logged == entries + [Cut(message, len) + " " + timestamp] <==> !(toFile && len < |message|))
  {
    var logged, cut := LoggedAs(message, len, toFile, timestamp), Cut(message, len) + " " + timestamp;
    assert (entries + [logged])[|entries|] == logged && (entries + [cut])[|entries|] == cut;
    assert toFile && len < |message| ==> |logged| > |cut|;
  }

  class Logger {
    var log: array<char>
    var file: string
    var currLogLen: nat
    var currLogSize: nat
    /** What was logged, in the order of the calls. */
    ghost var entries: seq<string>

    /** The counter is never below the length of the text in the buffer, and the text with its zero
        fits into the buffer, although the counter is not reset by a flush and counts too much. */
    ghost predicate Fits()
      reads this, log
    {
      && log.Length == currLogSize <= MAX_LOG_SIZE && IsText(log[..])
      && |Text(log[..])| <= currLogLen
    }

    /** The file, and what is still to be written to it. */
    ghost function Written(): string
      requires Fits()
      reads this, log
    {
      file + Text(log[..])
    }

    /** After every run of calls: the file and then the buffer are the entries, each once. */
    ghost predicate Valid()
      reads this, log
    {
      Fits() && Written() == Flat(entries)
    }

    constructor ()
      ensures Valid() && entries == [] && file == "" && currLogLen == 0 && currLogSize == INITIAL_LOG_SIZE && fresh(log)
    {
      var buffer := NewText(INITIAL_LOG_SIZE);
      log, file, currLogLen, currLogSize, entries := buffer, "", 0, INITIAL_LOG_SIZE, [];
    }

    /** Whether Logger_log writes out the buffer and the message: they do not fit, and the buffer
        may not grow far enough. */
    predicate GoesToFile(len: nat)
      reads this
    {
      var n := currLogLen + len + TIMESTAMP_LEN + 2;
      n >= currLogSize && (n >= MAX_LOG_SIZE || GrownSize(n) >= MAX_LOG_SIZE)
    }

    /** Logger_log. One entry is added: the message, a space and the time stamp, wherever the three
        branches put it. The message is cut to the given length, except on its way to the file. */
    method Log(message: string, len: nat, timestamp: string)
      requires Valid() && NUL !in message && NUL !in timestamp && |timestamp| < TIMESTAMP_LEN
      modifies this, log
      ensures Valid() && (log == old(log) || fresh(log)) && old(file) <= file
      ensures entries == old(entries) + [LoggedAs(message, len, old(GoesToFile(len)), timestamp)]
      ensures len >= |message| ==> entries == old(entries) + [message + " " + timestamp]
      ensures entries == old(entries) + [Cut(message, len) + " " + timestamp] <==>
        !(old(GoesToFile(len)) && len < |message|)
    {
      ghost var entry := LoggedAs(message, len, GoesToFile(len), timestamp);
      FlatSnoc(entries, entry);
      LoggedWhole(entries, message, len, GoesToFile(len), timestamp);
      Write(message, len, timestamp);
      entries := entries + [entry];
    }

    method Write(message: string, len: nat, timestamp: string)
      requires Fits() && NUL !in message && NUL !in timestamp && |timestamp| < TIMESTAMP_LEN
      modifies this, log
      ensures Fits() && (log == old(log) || fresh(log)) && old(file) <= file && entries == old(entries)
      ensures Written() == old(Written()) + LoggedAs(message, len, old(GoesToFile(len)), timestamp)
    {
      var lenToWrite := currLogLen + len + TIMESTAMP_LEN + 2;
      var newSize := GrownSize(lenToWrite);
      if lenToWrite < currLogSize {
        Concat(Cut(message, len), len, timestamp, lenToWrite);
      } else if lenToWrite >= MAX_LOG_SIZE || newSize >= MAX_LOG_SIZE {
        WriteOut(message, timestamp);
      } else {
        var larger := Enlarge(log, newSize);
        log, currLogSize := larger, newSize;
        Concat(Cut(message, len), len, timestamp, lenToWrite);
      }
    }

    /** Into the buffer: message, space and time stamp fit. */
    method Concat(message: string, ghost len: nat, timestamp: string, lenToWrite: nat)
      requires Fits() && NUL !in message && NUL !in timestamp && |timestamp| < TIMESTAMP_LEN
      requires |message| <= len && lenToWrite == currLogLen + len + TIMESTAMP_LEN + 2 < currLogSize
      modifies this`currLogLen, log
      ensures Fits() && entries == old(entries)
      ensures Written() == old(Written()) + (message + " " + timestamp)
    {
      Append(log, message);
      Append(log, " ");
      Append(log, timestamp);
      currLogLen := currLogLen + lenToWrite;
      assert Text(log[..]) == old(Text(log[..])) + message + " " + timestamp;
      assert Written() == old(Written()) + message + " " + timestamp;
    }

    /** Buffer and message go to the file, and a new buffer is begun. */
    method WriteOut(message: string, timestamp: string)
      requires Fits()
      modifies this
      ensures Fits() && fresh(log) && old(file) <= file && entries == old(entries)
      ensures Written() == old(Written()) + (message + " " + timestamp)
    {
      var text := ReadText(log);
      file := file + text + message + " " + timestamp;
      currLogLen := 0;
      log := NewText(MEDIUM_LOG_SIZE);
      currLogSize := MEDIUM_LOG_SIZE;
      assert Written() == file;
    }

    /** Logger_flush: the counter keeps its value. */
    method Flush()
      requires Valid()
      modifies this`file, log
      ensures Valid() && file == Flat(entries)
    {
      var text := ReadText(log);
      file := file + text;
      Clear(log);
      assert Written() == file;
    }

    /** Logger_delete writes out what is left: the file has every entry then. */
    method Delete()
      requires Valid()
      modifies this`file, log
      ensures file == Flat(entries)
    {
      Flush();
    }
  }

  /** A message that is longer than the length given with it, and so long that it goes to the file
      at once: it is logged whole. */
  method LogTooLong(timestamp: string) returns (logger: Logger, message: string)
    requires NUL !in timestamp && |timestamp| < TIMESTAMP_LEN
    ensures |message| == 80981 && logger.entries == [message + " " + timestamp]
    ensures logger.entries != [Cut(message, 80980) + " " + timestamp]
  {
    logger := new Logger();
    message := seq(80981, _ => 'x');
    assert logger.GoesToFile(80980);
    logger.Log(message, 80980, timestamp);
  }

  /** What fprintf prints of a buffer. */
  method ReadText(buffer: array<char>) returns (text: string)
    requires IsText(buffer[..])
    ensures text == Text(buffer[..])
  {
    var n := 0;
    while buffer[n] != NUL
      invariant n <= Length(buffer[..])
      decreases Length(buffer[..]) - n
    {
      TextIndex(buffer[..], n);
      n := n + 1;
    }
    TextIndex(buffer[..], n);
    text := buffer[..n];
  }
}
