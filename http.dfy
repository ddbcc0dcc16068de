/** The parts of net/http the handlers and middlewares touch: the request's
    headers, body and path variables, and a response writer with Go's commit
    rules (the first WriteHeader or Write fixes the status line and the header
    map that goes with it; later WriteHeader calls are ignored). */
module Http {
  import opened Errors

  /** An inbound request after routing: its headers (canonical keys, one
      value each), its body and the path variables the router extracted. */
  datatype Request = Request(header: map<string, string>, body: string, vars: map<string, string>)

  /** Header.Get: the value stored under `key`, or "" when there is none. */
  function HeaderGet(r: Request, key: string): string {
    if key in r.header then r.header[key] else ""
  }

  /** The calls a handler makes on its ResponseWriter. */
  datatype WriterCall =
    | SetHeader(key: string, value: string)
    | DelHeader(key: string)
    | WriteHeader(code: int)
    | Write(data: string)

  /** Whether a call sends the status line. */
  predicate Commits(c: WriterCall) {
    c.WriteHeader? || c.Write?
  }

  /** The status fixed by the first committing call: its code for WriteHeader,
      200 for a Write that comes first; None while nothing has committed. */
  function CommittedStatus(calls: seq<WriterCall>): Option<int>
    decreases |calls|
  {
    if calls == [] then None
    else match calls[0]
      case WriteHeader(code) => Some(code)
      case Write(_) => Some(200)
      case _ => CommittedStatus(calls[1..])
  }

  /** The effect of one call on the Header() map. */
  function ApplyHeader(h: map<string, string>, c: WriterCall): map<string, string> {
    match c
    case SetHeader(k, v) => h[k := v]
    case DelHeader(k) => h - {k}
    case _ => h
  }

  /** The Header() map after `calls`, starting from `h`. */
  function HeaderAfter(h: map<string, string>, calls: seq<WriterCall>): map<string, string>
    decreases |calls|
  {
    if calls == [] then h else HeaderAfter(ApplyHeader(h, calls[0]), calls[1..])
  }

  /** The header map that goes out with the status line: the map as it stood at
      the first committing call, or at the end when nothing committed. */
  function SentHeader(h: map<string, string>, calls: seq<WriterCall>): map<string, string>
    decreases |calls|
  {
    if calls == [] || Commits(calls[0]) then h else SentHeader(ApplyHeader(h, calls[0]), calls[1..])
  }

  /** The response body: every Write's data, in order. */
  function BodyOf(calls: seq<WriterCall>): string
    decreases |calls|
  {
    if calls == [] then "" else (if calls[0].Write? then calls[0].data else "") + BodyOf(calls[1..])
  }

  /** The response as the client receives it. */
  datatype Reply = Reply(status: int, header: map<string, string>, body: string)

  /** The response once the handler chain has returned: when nothing committed,
      the server sends 200 with the final header map and an empty body. */
  function Sent(calls: seq<WriterCall>): Reply {
    Reply(match CommittedStatus(calls) case Some(code) => code case None => 200,
          SentHeader(map[], calls), BodyOf(calls))
  }

  /** A commit in the first part of a call sequence fixes the status for good;
      otherwise the second part decides it. */
  lemma {:induction false} CommittedStatusAppend(a: seq<WriterCall>, b: seq<WriterCall>)
    ensures CommittedStatus(a + b) == if CommittedStatus(a).Some? then CommittedStatus(a) else CommittedStatus(b)
    decreases |a|
  {
    if a != [] {
      assert (a + b)[0] == a[0];
      assert (a + b)[1..] == a[1..] + b;
      CommittedStatusAppend(a[1..], b);
    } else {
      assert a + b == b;
    }
  }

  lemma {:induction false} HeaderAfterAppend(h: map<string, string>, a: seq<WriterCall>, b: seq<WriterCall>)
    ensures HeaderAfter(h, a + b) == HeaderAfter(HeaderAfter(h, a), b)
    decreases |a|
  {
    if a != [] {
      assert (a + b)[0] == a[0];
      assert (a + b)[1..] == a[1..] + b;
      HeaderAfterAppend(ApplyHeader(h, a[0]), a[1..], b);
    } else {
      assert a + b == b;
    }
  }

  /** Header changes after the commit do not reach the client. */
  lemma {:induction false} SentHeaderAppend(h: map<string, string>, a: seq<WriterCall>, b: seq<WriterCall>)
    ensures SentHeader(h, a + b) == if CommittedStatus(a).Some? then SentHeader(h, a) else SentHeader(HeaderAfter(h, a), b)
    decreases |a|
  {
    if a != [] {
      assert (a + b)[0] == a[0];
      assert (a + b)[1..] == a[1..] + b;
      if !Commits(a[0]) {
        SentHeaderAppend(ApplyHeader(h, a[0]), a[1..], b);
      }
    } else {
      assert a + b == b;
    }
  }

  lemma {:induction false} BodyOfAppend(a: seq<WriterCall>, b: seq<WriterCall>)
    ensures BodyOf(a + b) == BodyOf(a) + BodyOf(b)
    decreases |a|
  {
    if a != [] {
      assert (a + b)[0] == a[0];
      assert (a + b)[1..] == a[1..] + b;
      BodyOfAppend(a[1..], b);
    } else {
      assert a + b == b;
    }
  }

  /** What the client receives when a committed prefix is followed by more
      calls: the prefix's status and header, and both parts' bodies. */
  lemma SentAfterCommit(a: seq<WriterCall>, b: seq<WriterCall>)
    requires CommittedStatus(a).Some?
    ensures Sent(a + b) == Reply(CommittedStatus(a).value, SentHeader(map[], a), BodyOf(a) + BodyOf(b))
  {
    CommittedStatusAppend(a, b);
    SentHeaderAppend(map[], a, b);
    BodyOfAppend(a, b);
  }

  const ContentType: string := "Content-Type"
  const ApplicationJson: string := "application/json"
  const TextPlain: string := "text/plain; charset=utf-8"

  /** The calls http.Error makes: drop Content-Length, set a plain-text content
      type and nosniff, write the code, then the message and a newline. */
  function ErrorCalls(message: string, code: int): seq<WriterCall> {
    [DelHeader("Content-Length"), SetHeader(ContentType, TextPlain), SetHeader("X-Content-Type-Options", "nosniff"),
     WriteHeader(code), Write(message + "\n")]
  }

  /** An http.Error on a fresh response decides the reply, whatever follows:
      its code, the plain-text headers, and its message first in the body. */
  lemma {:induction false} SentError(message: string, code: int, rest: seq<WriterCall>)
    ensures Sent(ErrorCalls(message, code) + rest)
            == Reply(code, map[ContentType := TextPlain, "X-Content-Type-Options" := "nosniff"],
                     message + "\n" + BodyOf(rest))
  {
    var calls := ErrorCalls(message, code);
    var empty: map<string, string> := map[];
    var h2 := empty[ContentType := TextPlain];
    var h3 := h2["X-Content-Type-Options" := "nosniff"];
    assert empty - {"Content-Length"} == empty;
    // The three header calls, one at a time.
    var p3 := [calls[2]];
    var p2 := [calls[1]] + p3;
    var prefix := [calls[0]] + p2;
    assert p3[1..] == [] && p2[1..] == p3 && prefix[1..] == p2;
    assert HeaderAfter(h2, p3) == h3 && CommittedStatus(p3) == None && BodyOf(p3) == "";
    assert HeaderAfter(empty, p2) == h3 && CommittedStatus(p2) == None && BodyOf(p2) == "";
    assert HeaderAfter(empty, prefix) == h3 && CommittedStatus(prefix) == None && BodyOf(prefix) == "";
    // The commit and the write.
    var t2 := [calls[4]];
    var tail := [calls[3]] + t2;
    assert t2[1..] == [] && tail[1..] == t2;
    assert BodyOf(t2) == message + "\n";
    assert CommittedStatus(tail) == Some(code) && SentHeader(h3, tail) == h3 && BodyOf(tail) == message + "\n";
    assert calls == prefix + tail;
    CommittedStatusAppend(prefix, tail);
    SentHeaderAppend(empty, prefix, tail);
    BodyOfAppend(prefix, tail);
    SentAfterCommit(calls, rest);
  }

  /** A ResponseWriter, recorded as the calls made on it; the Header() map,
      the committed status and header and the body are views of that record. */
  class ResponseWriter {
    var calls: seq<WriterCall>

    /** The Header() map as it stands now. */
    function Header(): map<string, string>
      reads this
    {
      HeaderAfter(map[], calls)
    }

    /** The committed status, None while nothing has committed. */
    function Status(): Option<int>
      reads this
    {
      CommittedStatus(calls)
    }

    /** The body written so far. */
    function Body(): string
      reads this
    {
      BodyOf(calls)
    }

    constructor ()
      ensures calls == []
    {
      calls := [];
    }

    /** Header().Set: changes the map only; after the commit it no longer
        reaches the client. */
    method SetHeader(key: string, value: string)
      modifies this
      ensures calls == old(calls) + [WriterCall.SetHeader(key, value)]
      ensures Header() == old(Header())[key := value]
      ensures Status() == old(Status()) && Body() == old(Body())
      ensures old(Status()).Some? ==> Sent(calls).header == Sent(old(calls)).header
    {
      calls := calls + [WriterCall.SetHeader(key, value)];
      ViewsAppend(old(calls), [WriterCall.SetHeader(key, value)]);
    }

    /** Header().Del. */
    method DelHeader(key: string)
      modifies this
      ensures calls == old(calls) + [WriterCall.DelHeader(key)]
      ensures Header() == old(Header()) - {key}
      ensures Status() == old(Status()) && Body() == old(Body())
      ensures old(Status()).Some? ==> Sent(calls).header == Sent(old(calls)).header
    {
      calls := calls + [WriterCall.DelHeader(key)];
      ViewsAppend(old(calls), [WriterCall.DelHeader(key)]);
    }

    /** WriteHeader: the first commit fixes the status and the header that
        goes out with it; a later call is superfluous. */
    method WriteHeader(code: int)
      requires 100 <= code <= 999
      modifies this
      ensures calls == old(calls) + [WriterCall.WriteHeader(code)]
      ensures Status() == if old(Status()).None? then Some(code) else old(Status())
      ensures Sent(calls).header == if old(Status()).None? then old(Header()) else Sent(old(calls)).header
      ensures Header() == old(Header()) && Body() == old(Body())
    {
      calls := calls + [WriterCall.WriteHeader(code)];
      ViewsAppend(old(calls), [WriterCall.WriteHeader(code)]);
    }

    /** Write: commits with 200 when nothing committed yet, then appends. */
    method Write(data: string)
      modifies this
      ensures calls == old(calls) + [WriterCall.Write(data)]
      ensures Status() == if old(Status()).None? then Some(200) else old(Status())
      ensures Sent(calls).header == if old(Status()).None? then old(Header()) else Sent(old(calls)).header
      ensures Header() == old(Header()) && Body() == old(Body()) + data
    {
      calls := calls + [WriterCall.Write(data)];
      ViewsAppend(old(calls), [WriterCall.Write(data)]);
      assert [WriterCall.Write(data)][1..] == [];
    }
  }

  /** The views of a call record extended by more calls. */
  lemma ViewsAppend(a: seq<WriterCall>, b: seq<WriterCall>)
    ensures HeaderAfter(map[], a + b) == HeaderAfter(HeaderAfter(map[], a), b)
    ensures CommittedStatus(a + b) == if CommittedStatus(a).Some? then CommittedStatus(a) else CommittedStatus(b)
    ensures SentHeader(map[], a + b)
            == if CommittedStatus(a).Some? then SentHeader(map[], a) else SentHeader(HeaderAfter(map[], a), b)
    ensures BodyOf(a + b) == BodyOf(a) + BodyOf(b)
  {
    HeaderAfterAppend(map[], a, b);
    CommittedStatusAppend(a, b);
    SentHeaderAppend(map[], a, b);
    BodyOfAppend(a, b);
  }

  /** http.Error(w, message, code). */
  method WriteError(w: ResponseWriter, message: string, code: int)
    requires 100 <= code <= 999
    modifies w
    ensures w.calls == old(w.calls) + ErrorCalls(message, code)
  {
    w.DelHeader("Content-Length");
    w.SetHeader(ContentType, TextPlain);
    w.SetHeader("X-Content-Type-Options", "nosniff");
    w.WriteHeader(code);
    w.Write(message + "\n");
  }
}
