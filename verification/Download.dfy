// Resumable, verified downloads (internal/download/resumable.go), after sections 14.2,
// 14.4 and 15.3.7 of RFC 9110.
module Download {
  import opened Prelude

  // What is at the artifact's path.
  datatype File = Missing | Irregular | Regular(bytes: seq<byte>)

  datatype Artifact = Artifact(size: int, digest: Id, digestIsValid: bool)

  datatype ContentRange = ContentRange(first: nat, last: int, total: int)

  // A response: whether the caller's validator accepts it, its headers, the bytes that
  // arrive, and whether the connection breaks after them.
  datatype Response =
    | Unreachable
    | Response(accepted: bool, status: nat, range: Option<ContentRange>, length: Option<nat>, body: seq<byte>, interrupted: bool)

  const STATUS_OK := 200
  const STATUS_PARTIAL_CONTENT := 206

  // A server answers a request for the whole artifact (offset 0) or for the bytes from an
  // offset on.
  type Server = nat -> Response

  type Digest = seq<byte> -> Id

  // ---- What one call does ----

  predicate Verified(f: File, a: Artifact, sha: Digest) {
    f.Regular? && |f.bytes| == a.size && sha(f.bytes) == a.digest
  }

  // openPartial: what is left to resume from, unless the artifact is already complete.
  function Opened(f: File, a: Artifact, sha: Digest): (bytes: seq<byte>)
    ensures Verified(Regular(bytes), a, sha) || |bytes| < a.size || a.size <= 0
  {
    if !f.Regular? || |f.bytes| > a.size then []
    else if |f.bytes| == a.size && !Verified(f, a, sha) then []
    else f.bytes
  }

  // The offset from which a response is written, if it is usable.
  function WriteFrom(r: Response, offset: nat, size: int): Option<nat> {
    if r.Unreachable? || !r.accepted then None
    else if offset == 0 then if r.status == STATUS_OK then Some(0) else None
    else if r.status == STATUS_PARTIAL_CONTENT then
      if r.range == Some(ContentRange(offset, size - 1, size)) then Some(offset) else None
    else if r.status == STATUS_OK then Some(0)
    else None
  }

  // Fetch: the file it leaves behind, and whether it returns without an error.
  function Fetched(f: File, a: Artifact, sha: Digest, server: Server): (r: (File, bool)) {
    if a.size < 1 || !a.digestIsValid then (f, false)
    else
      var bytes := Opened(f, a, sha);
      if Verified(Regular(bytes), a, sha) then (Regular(bytes), true)
      else
        var response := server(|bytes|);
        var from := WriteFrom(response, |bytes|, a.size);
        if from == None then (Regular(bytes), false)
        else Received(bytes[..from.value], a, sha, response)
  }

  // What becomes of the bytes kept and the body of a usable response.
  function Received(kept: seq<byte>, a: Artifact, sha: Digest, r: Response): (File, bool)
    requires r.Response? && |kept| < a.size
  {
    var remaining := a.size - |kept|;
    var written := if |r.body| <= remaining then r.body else r.body[..remaining + 1];
    if r.length.Some? && r.length.value != remaining then (Regular(kept), false)
    else if |r.body| <= remaining && r.interrupted then (Regular(kept + written), false)
    else if |written| > remaining then (Regular(kept), false)
    else if |written| < remaining then (Regular(kept + written), false)
    else if Verified(Regular(kept + written), a, sha) then (Regular(kept + written), true)
    else (Missing, false)
  }

  // ---- The call itself ----

  class Partial {
    var file: File
    var position: nat

    constructor (f: File)
      ensures file == f
    {
      file, position := f, 0;
    }

    // removePartial
    method Remove()
      modifies this
      ensures file == Missing
    {
      file := Missing;
    }

    method Truncate(size: nat)
      requires file.Regular? && size <= |file.bytes|
      modifies `file
      ensures file == Regular(old(file.bytes)[..size])
    {
      file := Regular(file.bytes[..size]);
    }

    // resetPartial
    method Reset()
      requires file.Regular?
      modifies this
      ensures file == Regular([]) && position == 0
    {
      Truncate(0);
      position := 0;
    }

    // Writes one byte at the current position, which is never past the end.
    method Write(b: byte)
      requires file.Regular? && position <= |file.bytes|
      modifies this
      ensures position == old(position) + 1
      ensures file == Regular(old(file.bytes)[..old(position)] + [b]
                              + if old(position) < |old(file.bytes)| then old(file.bytes)[old(position) + 1..] else [])
    {
      file := Regular(file.bytes[..position] + [b] + if position < |file.bytes| then file.bytes[position + 1..] else []);
      position := position + 1;
    }

    // Copies what arrives, up to a limit.
    method Copy(body: seq<byte>, limit: nat) returns (written: nat)
      requires file.Regular? && position == |file.bytes|
      modifies this
      ensures written == (if |body| <= limit then |body| else limit)
      ensures file == Regular(old(file.bytes) + body[..written])
    {
      written := 0;
      while written < |body| && written < limit
        invariant written <= |body| && written <= limit
        invariant file == Regular(old(file.bytes) + body[..written]) && position == |file.bytes|
      {
        Write(body[written]);
        written := written + 1;
        assert body[..written] == body[..written - 1] + [body[written - 1]];
      }
    }

    // openPartial: the offset to resume from, or None when the artifact is complete.
    method Open(a: Artifact, sha: Digest) returns (offset: Option<nat>)
      requires a.size >= 1
      modifies this
      ensures file == Regular(Opened(old(file), a, sha))
      ensures offset == if Verified(file, a, sha) then None else Some(|file.bytes|)
    {
      if file.Irregular? { Remove(); }
      if file.Missing? { file := Regular([]); }
      if |file.bytes| > a.size { Reset(); }
      if |file.bytes| == a.size {
        if Verified(file, a, sha) { return None; }
        Truncate(0);
      }
      return Some(|file.bytes|);
    }

    method Fetch(a: Artifact, sha: Digest, server: Server) returns (ok: bool)
      modifies this
      ensures (file, ok) == Fetched(old(file), a, sha, server)
    {
      if a.size < 1 || !a.digestIsValid { return false; }
      var resume := Open(a, sha);
      if resume == None { return true; }
      var offset := resume.value;
      ghost var bytes := file.bytes;
      var response := server(offset);
      if response.Unreachable? || !response.accepted { return false; }
      if offset == 0 && response.status != STATUS_OK {
        return false;
      } else if offset > 0 && response.status == STATUS_PARTIAL_CONTENT {
        if response.range != Some(ContentRange(offset, a.size - 1, a.size)) { return false; }
      } else if offset > 0 && response.status == STATUS_OK {
        Reset();
        offset := 0;
      } else if offset > 0 {
        return false;
      }
      assert WriteFrom(response, |bytes|, a.size) == Some(offset) && file == Regular(bytes[..offset]);
      ok := Receive(a, sha, response, offset);
    }

    method Receive(a: Artifact, sha: Digest, response: Response, offset: nat) returns (ok: bool)
      requires file.Regular? && |file.bytes| == offset < a.size && response.Response?
      modifies this
      ensures (file, ok) == Received(old(file.bytes), a, sha, response)
    {
      var remaining: nat := a.size - offset;
      if response.length.Some? && response.length.value != remaining { return false; }
      position := offset;
      var written := Copy(response.body, remaining + 1);
      assert response.body[..|response.body|] == response.body;
      if response.interrupted && written == |response.body| && written <= remaining { return false; }
      if written != remaining {
        if written > remaining {
          Truncate(offset);
          assert file.bytes == old(file.bytes);
        }
        return false;
      }
      if !Verified(file, a, sha) {
        Remove();
        return false;
      }
      return true;
    }
  }

  // ---- Any server ----

  // Whatever the server sends, a call that returns without an error leaves exactly the
  // artifact behind.
  lemma SuccessIsVerified(f: File, a: Artifact, sha: Digest, server: Server)
    requires Fetched(f, a, sha, server).1
    ensures Verified(Fetched(f, a, sha, server).0, a, sha)
  {
  }

  // ---- Honest servers ----

  // An honest server sends the artifact's bytes from the offset asked for, or all of them
  // if it does not serve ranges; it may be interrupted, or be out of reach.
  ghost predicate HonestBody(body: seq<byte>, interrupted: bool, expected: seq<byte>) {
    if interrupted then body <= expected else body == expected
  }

  ghost predicate HonestAnswer(r: Response, content: seq<byte>, offset: nat)
    requires offset <= |content|
  {
    r.Response? ==>
      && r.accepted
      && if r.status == STATUS_PARTIAL_CONTENT && offset > 0 then
           && r.range == Some(ContentRange(offset, |content| - 1, |content|))
           && (r.length.Some? ==> r.length.value == |content| - offset)
           && HonestBody(r.body, r.interrupted, content[offset..])
         else
           && r.status == STATUS_OK
           && (r.length.Some? ==> r.length.value == |content|)
           && HonestBody(r.body, r.interrupted, content)
  }

  ghost predicate Honest(server: Server, content: seq<byte>) {
    forall offset: nat :: offset <= |content| ==> HonestAnswer(server(offset), content, offset)
  }

  ghost predicate Uninterrupted(server: Server, content: seq<byte>) {
    forall offset: nat :: offset <= |content| ==> server(offset).Response? && !server(offset).interrupted
  }

  ghost predicate IsPrefix(f: File, content: seq<byte>) {
    f.Missing? || (f.Regular? && f.bytes <= content)
  }

  // An honest server, however often interrupted, only ever extends a true prefix.
  lemma HonestFetchKeepsPrefix(f: File, a: Artifact, sha: Digest, server: Server, content: seq<byte>)
    requires |content| == a.size && sha(content) == a.digest
    requires Honest(server, content) && IsPrefix(f, content)
    ensures IsPrefix(Fetched(f, a, sha, server).0, content)
  {
    if a.size >= 1 && a.digestIsValid {
      var bytes := Opened(f, a, sha);
      assert f.Regular? && |f.bytes| == a.size ==> f.bytes == content;
      assert bytes <= content;
      var response := server(|bytes|);
      assert HonestAnswer(response, content, |bytes|);
      var from := WriteFrom(response, |bytes|, a.size);
      if from.Some? {
        var kept := bytes[..from.value];
        assert kept == content[..from.value];
        assert response.body <= content[from.value..];
        assert kept + response.body <= content by {
          assert content[..from.value] + content[from.value..] == content;
        }
      }
    }
  }

  // An interrupted attempt keeps what it got, after what it resumed from unless the server
  // sent everything again, and the next one asks for the rest. One that got nothing keeps
  // what there was.
  lemma InterruptionIsResumed(f: File, a: Artifact, sha: Digest, server: Server, content: seq<byte>)
    requires a.size >= 1 && a.digestIsValid && |content| == a.size && sha(content) == a.digest && Honest(server, content)
    requires f.Regular? && f.bytes <= content && |f.bytes| < a.size
    requires var r := server(|f.bytes|); r.Response? ==> r.interrupted
    ensures var r := server(|f.bytes|);
            var kept := if r.Unreachable? then f.bytes
                        else if r.status == STATUS_PARTIAL_CONTENT then f.bytes + r.body
                        else r.body;
            && Fetched(f, a, sha, server) == (Regular(kept), false)
            && Opened(Regular(kept), a, sha) == kept <= content
  {
    var r := server(|f.bytes|);
    assert HonestAnswer(r, content, |f.bytes|);
    assert f.bytes[..|f.bytes|] == f.bytes && f.bytes[..0] == [];
    if r.Response? {
      if r.status == STATUS_PARTIAL_CONTENT && |f.bytes| > 0 {
        assert content == f.bytes + content[|f.bytes|..];
        assert |f.bytes + r.body| == a.size ==> f.bytes + r.body == content;
      } else {
        assert [] + r.body == r.body;
        assert |r.body| == a.size ==> r.body == content;
      }
    }
  }

  function FetchedAll(f: File, a: Artifact, sha: Digest, servers: seq<Server>): File
    decreases |servers|
  {
    if servers == [] then f
    else Fetched(FetchedAll(f, a, sha, servers[..|servers| - 1]), a, sha, servers[|servers| - 1]).0
  }

  lemma {:induction false} PrefixSurvivesInterruptions(f: File, a: Artifact, sha: Digest, servers: seq<Server>, content: seq<byte>)
    requires |content| == a.size && sha(content) == a.digest && IsPrefix(f, content)
    requires forall i :: 0 <= i < |servers| ==> Honest(servers[i], content)
    ensures IsPrefix(FetchedAll(f, a, sha, servers), content)
    decreases |servers|
  {
    if servers != [] {
      var front := servers[..|servers| - 1];
      PrefixSurvivesInterruptions(f, a, sha, front, content);
      HonestFetchKeepsPrefix(FetchedAll(f, a, sha, front), a, sha, servers[|servers| - 1], content);
    }
  }

  // A single attempt with an honest, uninterrupted server succeeds exactly when the server
  // ignores the range or what it completes is the artifact; otherwise it clears the file.
  lemma OneAttempt(f: File, a: Artifact, sha: Digest, server: Server, content: seq<byte>)
    requires a.size >= 1 && a.digestIsValid && |content| == a.size && sha(content) == a.digest
    requires Honest(server, content) && Uninterrupted(server, content)
    ensures var bytes := Opened(f, a, sha);
            var r := Fetched(f, a, sha, server);
            var resumed := 0 < |bytes| < a.size && server(|bytes|).status == STATUS_PARTIAL_CONTENT;
            && (r.1 <==> !resumed || sha(bytes + content[|bytes|..]) == a.digest)
            && (!r.1 ==> r.0 == Missing)
  {
    var bytes := Opened(f, a, sha);
    if |bytes| < a.size {
      var response := server(|bytes|);
      assert HonestAnswer(response, content, |bytes|);
      assert content[0..] == content && content[..0] == [] && bytes[..|bytes|] == bytes;
      assert bytes[..0] + content == content;
    }
  }

  // From any initial contents, an honest, uninterrupted server makes the download succeed
  // within two attempts.
  lemma TwoAttempts(f: File, a: Artifact, sha: Digest, first: Server, second: Server, content: seq<byte>)
    requires a.size >= 1 && a.digestIsValid && |content| == a.size && sha(content) == a.digest
    requires Honest(first, content) && Uninterrupted(first, content)
    requires Honest(second, content) && Uninterrupted(second, content)
    ensures var r := Fetched(f, a, sha, first);
            r.1 || Fetched(r.0, a, sha, second).1
  {
    OneAttempt(f, a, sha, first, content);
    OneAttempt(Missing, a, sha, second, content);
  }
}
