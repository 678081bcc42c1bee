/** The response writer the facade handlers write to, as the test recorder
    keeps it: the first status written sticks, a body write without a status
    implies 200, and `http.Error` writes a plain-text line. */
module Recorder {

  const StatusOK := 200

  class ResponseRecorder {
    var code: int
    var header: map<string, string>
    var body: string
    var wroteHeader: bool

    /** A fresh recorder: status 200 until something else is written. */
    constructor()
      ensures code == StatusOK && header == map[] && body == "" && !wroteHeader
    {
      code := StatusOK;
      header := map[];
      body := "";
      wroteHeader := false;
    }

    /** `Header().Set(key, value)`. */
    method SetHeader(key: string, value: string)
      modifies this
      ensures header == old(header)[key := value]
      ensures code == old(code) && body == old(body) && wroteHeader == old(wroteHeader)
    {
      header := header[key := value];
    }

    /** `WriteHeader(status)`: only the first call has an effect. */
    method WriteHeader(status: int)
      modifies this
      ensures wroteHeader
      ensures code == (if old(wroteHeader) then old(code) else status)
      ensures header == old(header) && body == old(body)
    {
      if !wroteHeader {
        code := status;
        wroteHeader := true;
      }
    }

    /** `Write(data)`: a write before any status implies 200. The recorder
        would guess a content type when none is set before the status is
        written; every write here comes after one of the two. */
    method Write(data: string)
      requires wroteHeader || "Content-Type" in header
      modifies this
      ensures wroteHeader
      ensures code == (if old(wroteHeader) then old(code) else StatusOK)
      ensures header == old(header) && body == old(body) + data
    {
      if !wroteHeader {
        WriteHeader(StatusOK);
      }
      body := body + data;
    }

    /** `http.Error(w, message, status)`: plain-text headers, the status,
        then the message and a newline. */
    method Error(message: string, status: int)
      modifies this
      ensures wroteHeader
      ensures code == (if old(wroteHeader) then old(code) else status)
      ensures header == (old(header) - {"Content-Length"})
        ["Content-Type" := "text/plain; charset=utf-8"]["X-Content-Type-Options" := "nosniff"]
      ensures body == old(body) + message + "\n"
    {
      header := header - {"Content-Length"};
      SetHeader("Content-Type", "text/plain; charset=utf-8");
      SetHeader("X-Content-Type-Options", "nosniff");
      WriteHeader(status);
      Write(message + "\n");
    }
  }
}
