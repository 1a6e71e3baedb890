/**
 * The world outside the package, as inputs and observable effects.
 *
 * The API is a finite script of replies: a request whose reply the
 * package reads consumes the next reply of the script, and a request
 * sent without reading its reply (the EDW job cancellations) consumes
 * none. An exhausted script stands for a server that never answers (the
 * package has no client timeout), and ends the run with the error kind
 * `NoReply`.
 *
 * What the package does to the world is a trace of events: requests
 * sent, sleeps, directories created and files written.
 */
module Remote {
  import opened Wrappers
  import opened PyValue

  /** A reply body: a JSON document, or text that is not JSON. */
  datatype Reply = Json(body: Py) | NotJson(text: string)

  /** An HTTP request: verb, URL, query parameters (GET) and JSON body (POST). */
  datatype Request = Request(verb: string, url: string, query: Py, json: Py)

  datatype Event =
    | Send(req: Request)
    | Sleep(seconds: int)
    | MakeDir(path: string)
      /** A file opened for writing, with the CSV lines handed to the writer. */
    | WriteFile(path: string, lines: seq<Py>)

  /** The local file system: regular files and directories. */
  datatype Disk = Disk(files: set<string>, dirs: set<string>)

  /** `os.path.exists`. */
  predicate Exists(d: Disk, path: string)
  {
    path in d.files || path in d.dirs
  }

  /** The result of a step, the events it caused and the replies left unread. */
  datatype Outcome<+T> = Outcome(result: Result<T>, trace: seq<Event>, rest: seq<Reply>)

  /** A step that may also change the file system. */
  datatype Run<+T> = Run(result: Result<T>, trace: seq<Event>, rest: seq<Reply>, disk: Disk)

  /** `os.path.join(directory, name)`: an absolute name wins, otherwise one '/' joins them. */
  function PathJoin(directory: string, name: string): (p: string)
    ensures |name| <= |p| && p[|p| - |name|..] == name
  {
    if |name| > 0 && name[0] == '/' then name
    else if directory == [] || directory[|directory| - 1] == '/' then directory + name
    else directory + "/" + name
  }

  /** The file system once a file is opened for writing at `path`. */
  function Opened(d: Disk, path: string): (e: Disk)
    ensures path in e.files && d.files <= e.files && e.dirs == d.dirs
  {
    Disk(d.files + {path}, d.dirs)
  }

  /** The requests of a trace, in the order they were sent. */
  function Sent(trace: seq<Event>): (reqs: seq<Request>)
    ensures |reqs| <= |trace|
  {
    if |trace| == 0 then []
    else (if trace[0].Send? then [trace[0].req] else []) + Sent(trace[1..])
  }

  lemma {:induction false} SentAppend(a: seq<Event>, b: seq<Event>)
    ensures Sent(a + b) == Sent(a) + Sent(b)
    decreases |a|
  {
    if |a| == 0 {
      assert a + b == b;
    } else {
      var head := if a[0].Send? then [a[0].req] else [];
      assert (a + b)[0] == a[0];
      assert (a + b)[1..] == a[1..] + b;
      SentAppend(a[1..], b);
      calc {
        Sent(a + b);
        head + Sent(a[1..] + b);
        head + (Sent(a[1..]) + Sent(b));
        (head + Sent(a[1..])) + Sent(b);
      }
    }
  }
}
