/** A whole file, read to its end the way an analyzer acquires packets. */
module HextRun {
  import opened HextSpec
  import opened HextReader
  import opened HextRoundTrip

  /** The state a reader starts in. */
  function Start(ends: Ends): State {
    State("", false, ends, map[], true, false)
  }

  /** Acquires until the source has no more: exactly the events of the file come out, in order. */
  method ReadAll(env: Env, content: string, ends: Ends) returns (reader: Reader)
    requires env.snaplen > 0
    ensures reader.log == Events(env, Start(ends), Lines(content))
  {
    hide Events, Lines;
    reader := new Reader(env, content, ends);
    assert [] + Lines(content) == Lines(content);
    assert [] + Events(env, Start(ends), Lines(content)) == Events(env, Start(ends), Lines(content));
    ghost var all := reader.log + reader.Future();
    var status := 0;
    while status >= 0
      invariant reader.Valid() && !reader.meta && (reader.eof ==> reader.Work() == 0) && fresh(reader)
                && fresh(reader.buf)
      invariant reader.log + reader.Future() == all
      invariant status < 0 ==> reader.Future() == []
      decreases if status >= 0 then reader.Work() + 1 else 0
    {
      status := reader.Acquire(0);
    }
  }

  /** A script written line by line and read to its end gives its groups as packets and runs each command once. */
  method ReadScript(env: Env, lines: seq<string>, ends: Ends) returns (reader: Reader)
    requires env.snaplen > 0 && AllWellFormed(lines) && forall i | 0 <= i < |lines| :: ProperLine(lines[i])
    ensures PacketsOf(reader.log) == Closed(lines, "", env.snaplen) + NonEmpty(Open(lines, ""), env.snaplen)
    ensures RunsOf(reader.log) == Commands(lines)
    ensures env.user ==> HeadersOk(env, ends, true, reader.log)
  {
    hide *;
    reader := ReadAll(env, Concat(lines), ends);
    FileBack(lines);
    StartIsInitial(ends);
    ScriptMeansGroups(env, Start(ends), lines);
    if env.user {
      ScriptHeaders(env, Start(ends), lines);
    }
  }

  lemma StartIsInitial(ends: Ends)
    ensures Initial(Start(ends)) && !Start(ends).eof && Start(ends).ends == ends && Start(ends).start
  {
  }
}
