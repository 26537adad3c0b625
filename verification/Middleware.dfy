/**
  The response writer the HTTP middleware puts around the real one to learn the status code.
*/
module Middleware {
  // A handler's calls on its http.ResponseWriter.
  datatype WriterCall = WriteHeader(code: int) | Write

  // A 1xx status announces an interim response; a final one follows (section 15.2 of RFC 9110).
  // The exception is 101 Switching Protocols, after which HTTP/1.1 ends: net/http sends it as the
  // last status and ignores later WriteHeader calls.
  predicate Informational(code: int) {
    100 <= code < 200 && code != STATUS_SWITCHING_PROTOCOLS
  }

  const STATUS_SWITCHING_PROTOCOLS: int := 101

  const STATUS_OK: int := 200
  const STATUS_INTERNAL_SERVER_ERROR: int := 500

  predicate IsServerError(status: int) {
    status >= STATUS_INTERNAL_SERVER_ERROR
  }

  // What the recorder remembers: the very first call decides.
  function RecordedStatus(calls: seq<WriterCall>): int {
    if calls != [] && calls[0].WriteHeader? then calls[0].code else STATUS_OK
  }

  // What the client gets as the final status: interim responses are skipped, a body without a
  // header and a handler that writes nothing both mean 200.
  function FinalStatus(calls: seq<WriterCall>): int {
    if calls == [] then STATUS_OK
    else if calls[0].Write? then STATUS_OK
    else if Informational(calls[0].code) then FinalStatus(calls[1..])
    else calls[0].code
  }

  predicate StartsInterim(calls: seq<WriterCall>) {
    calls != [] && calls[0].WriteHeader? && Informational(calls[0].code)
  }

  class StatusRecorder {
    var status: int
    var wroteHeader: bool
    var forwarded: seq<WriterCall>  // calls passed on to the wrapped writer

    ghost predicate Valid()
      reads this
    {
      status == RecordedStatus(forwarded) && wroteHeader == (forwarded != [])
    }

    constructor ()
      ensures Valid() && forwarded == []
    {
      status := STATUS_OK;
      wroteHeader := false;
      forwarded := [];
    }

    method WriteHeader(code: int)
      requires Valid()
      modifies this
      ensures Valid() && forwarded == old(forwarded) + [WriterCall.WriteHeader(code)]
    {
      if !wroteHeader {
        status := code;
        wroteHeader := true;
      }
      forwarded := forwarded + [WriterCall.WriteHeader(code)];
    }

    method Write()
      requires Valid()
      modifies this
      ensures Valid() && forwarded == old(forwarded) + [WriterCall.Write]
    {
      if !wroteHeader {
        wroteHeader := true;
      }
      forwarded := forwarded + [WriterCall.Write];
    }
  }

  // A handler's calls through a fresh recorder.
  method Respond(calls: seq<WriterCall>) returns (status: int)
    ensures status == RecordedStatus(calls)
  {
    var sw := new StatusRecorder();
    for i := 0 to |calls|
      invariant sw.Valid() && fresh(sw) && sw.forwarded == calls[..i]
    {
      match calls[i] {
        case WriteHeader(code) => sw.WriteHeader(code);
        case Write => sw.Write();
      }
    }
    assert calls[..|calls|] == calls;
    status := sw.status;
  }

  lemma {:induction false} FinalIsNotInformational(calls: seq<WriterCall>)
    ensures !Informational(FinalStatus(calls))
  {
    if StartsInterim(calls) { FinalIsNotInformational(calls[1..]); }
  }

  // The recorded status is the one sent exactly when the handler does not begin with an interim
  // response; with one, the two differ whatever follows.
  lemma RecordedIsFinal(calls: seq<WriterCall>)
    ensures RecordedStatus(calls) == FinalStatus(calls) <==> !StartsInterim(calls)
  {
    FinalIsNotInformational(calls);
  }

  // Server errors are reported exactly when they are sent, except behind an interim response.
  lemma ServerErrorIsSeen(calls: seq<WriterCall>)
    ensures var seen, sent := IsServerError(RecordedStatus(calls)), IsServerError(FinalStatus(calls));
            (seen <==> sent) <==> !(StartsInterim(calls) && sent)
  {
    RecordedIsFinal(calls);
  }

  // For final codes only, the first call decides what is sent, and it is what is recorded.
  lemma FinalCodesAreRecorded(calls: seq<WriterCall>)
    requires forall i | 0 <= i < |calls| && calls[i].WriteHeader? :: calls[i].code >= 200
    ensures RecordedStatus(calls) == FinalStatus(calls)
  {
    RecordedIsFinal(calls);
  }

  // Early hints followed by a failure: the client sees 503, the circuit breaker sees no error.
  lemma InterimResponseHidesServerError()
    ensures var calls := [WriteHeader(103), WriteHeader(503)];
            FinalStatus(calls) == 503 && RecordedStatus(calls) == 103
  {
    var calls := [WriteHeader(103), WriteHeader(503)];
    assert calls[1..] == [WriteHeader(503)];
  }
}
