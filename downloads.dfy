/** The single-use download link of the book. A token is unused, used (for
    good) or expired (a comparison with the clock, never stored). HEAD checks
    a link without spending it; GET spends it before the file goes out. A
    second, older handler gives the three refusals distinct answers. */
module Downloads {
  import opened Wrappers
  import opened Models
  import opened Db

  /** The record `validateToken` accepts: present, unused, and not expired.
      Expiry is strict: a token expiring exactly now still works. */
  function Validate(tokens: map<string, DownloadToken>, token: string, now: Millis): (r: Option<DownloadToken>)
    ensures r.Some? <==> token != "" && token in tokens && !tokens[token].used && !(tokens[token].expiresAt < now)
    ensures r.Some? ==> r.value == tokens[token]
  {
    if token == "" then None
    else if token !in tokens then None
    else if tokens[token].used then None
    else if tokens[token].expiresAt < now then None
    else Some(tokens[token])
  }

  /** What a successful GET leaves behind: the presented token marked used,
      every other record as it was. */
  function Consume(tokens: map<string, DownloadToken>, token: string): (r: map<string, DownloadToken>)
    requires token in tokens
    ensures r.Keys == tokens.Keys
    ensures r[token] == tokens[token].(used := true)
    ensures forall k | k in tokens && k != token :: r[k] == tokens[k]
  {
    tokens[token := tokens[token].(used := true)]
  }

  /** Once spent, a link is refused at any later time. */
  lemma ConsumedIsRefused(tokens: map<string, DownloadToken>, token: string, later: Millis)
    requires token in tokens
    ensures Validate(Consume(tokens, token), token, later).None?
  {
  }

  /** Spending never revives a used token, of this or of another link. */
  lemma UsedIsTerminal(tokens: map<string, DownloadToken>, token: string)
    requires token in tokens
    ensures forall k | k in tokens && tokens[k].used :: Consume(tokens, token)[k].used
  {
  }

  /** `validateToken`: an empty token is refused before any lookup; a store
      failure is an exception (500). */
  method ValidateToken(store: Store, token: string, now: Millis) returns (r: Result<Option<DownloadToken>, DbError>)
    requires store.Valid()
    ensures token == "" ==> r == Ok(None)
    ensures token != "" && !store.online ==> r == Err(Unavailable)
    ensures token != "" && store.online ==> r == Ok(Validate(store.tokens, token, now))
  {
    if token == "" { return Ok(None); }
    var found := store.FindToken(token);
    if found.Err? { return Err(found.error); }
    var record := found.value;
    if record.None? { return Ok(None); }
    if record.value.used { return Ok(None); }
    if record.value.expiresAt < now { return Ok(None); }
    return Ok(record);
  }

  datatype HeadReply =
    | HeadRefused          // 401, "Link inválido o expirado"
    | HeadOk(size: nat)    // 200 with the PDF headers and its length
    | HeadError            // 500

  /** `HEAD /:token`. `fileSize` is the size `fs.stat` reports for the PDF,
      None when it throws. The method cannot write the store. */
  method Head(store: Store, token: string, fileSize: Option<nat>, now: Millis) returns (reply: HeadReply)
    requires store.Valid()
    ensures token == "" || (store.online && Validate(store.tokens, token, now).None?) ==> reply == HeadRefused
    ensures reply.HeadOk? <==> token != "" && store.online && Validate(store.tokens, token, now).Some? && fileSize.Some?
    ensures reply.HeadOk? ==> reply.size == fileSize.value
    ensures reply == HeadError <==>
      token != "" && (!store.online || (Validate(store.tokens, token, now).Some? && fileSize.None?))
  {
    var record := ValidateToken(store, token, now);
    if record.Err? { return HeadError; }
    if record.value.None? { return HeadRefused; }
    if fileSize.None? { return HeadError; }
    return HeadOk(fileSize.value);
  }

  datatype GetReply =
    | GetRefused           // 401, "Link inválido o expirado"
    | SendFile             // res.download of libro.pdf
    | GetError             // 500, "Error en el servidor"

  /** `GET /:token`: a valid token is marked used and saved, then the file
      is sent. Only the presented token's record can change. */
  method Get(store: Store, token: string, now: Millis) returns (reply: GetReply)
    requires store.Valid()
    modifies store
    ensures store.Valid()
    ensures reply == SendFile <==> token != "" && old(store.online) && Validate(old(store.tokens), token, now).Some?
    ensures reply == SendFile ==> store.tokens == Consume(old(store.tokens), token)
    ensures reply != SendFile ==> store.tokens == old(store.tokens)
    ensures token == "" || (old(store.online) && Validate(old(store.tokens), token, now).None?) ==> reply == GetRefused
    ensures reply == GetError <==> token != "" && !old(store.online)
    ensures store.users == old(store.users) && store.nextId == old(store.nextId) && store.online == old(store.online)
      && store.purchases == old(store.purchases) && store.access == old(store.access) && store.resets == old(store.resets)
      && store.courses == old(store.courses) && store.books == old(store.books)
  {
    var record := ValidateToken(store, token, now);
    if record.Err? { return GetError; }
    if record.value.None? { return GetRefused; }
    var spent := record.value.value.(used := true);
    var saved := store.SaveToken(spent);
    if saved.Err? { return GetError; }
    return SendFile;
  }

  /** A GET that sent the file is followed by refusals only, from HEAD and
      GET alike, whatever the time. */
  method GetThenRetry(store: Store, token: string, fileSize: Option<nat>, now: Millis, later: Millis)
    returns (first: GetReply, head: HeadReply, second: GetReply)
    requires store.Valid()
    modifies store
    ensures first == SendFile ==> head == HeadRefused && second == GetRefused
    ensures first == SendFile ==> token in old(store.tokens) && store.tokens == Consume(old(store.tokens), token)
  {
    first := Get(store, token, now);
    if first == SendFile {
      ConsumedIsRefused(old(store.tokens), token, later);
    }
    head := Head(store, token, fileSize, later);
    second := Get(store, token, later);
  }

  // ---------------------------------------------------------------------
  // The controller variant

  datatype BookDownload =
    | UnknownLink          // 404, "Link inválido"
    | AlreadyUsed          // 403, "Link ya usado"
    | LinkExpired          // 403, "Link expirado"
    | Deliver              // the token is spent and the file sent

  /** The controller's checks, in their order: unknown, used, expired. */
  function Classify(tokens: map<string, DownloadToken>, token: string, now: Millis): (r: BookDownload)
    ensures r == UnknownLink <==> token !in tokens
    ensures r == AlreadyUsed <==> token in tokens && tokens[token].used
    ensures r == LinkExpired <==> token in tokens && !tokens[token].used && tokens[token].expiresAt < now
  {
    if token !in tokens then UnknownLink
    else if tokens[token].used then AlreadyUsed
    else if tokens[token].expiresAt < now then LinkExpired
    else Deliver
  }

  /** Both handlers accept the same links: the controller delivers exactly
      when `validateToken` returns the record. */
  lemma HandlersAgree(tokens: map<string, DownloadToken>, token: string, now: Millis)
    requires token != ""
    ensures Classify(tokens, token, now) == Deliver <==> Validate(tokens, token, now).Some?
  {
  }

  /** A link both used and expired is reported as used. */
  lemma UsedBeforeExpired(tokens: map<string, DownloadToken>, token: string, now: Millis)
    requires token in tokens && tokens[token].used && tokens[token].expiresAt < now
    ensures Classify(tokens, token, now) == AlreadyUsed
  {
  }

  /** `downloadBook`. There is no `try`: a store failure rejects the
      handler's promise (`Err`). */
  method DownloadBook(store: Store, token: string, now: Millis) returns (r: Result<BookDownload, DbError>)
    requires store.Valid()
    modifies store
    ensures store.Valid()
    ensures old(store.online) ==> r == Ok(Classify(old(store.tokens), token, now))
    ensures !old(store.online) ==> r == Err(Unavailable)
    ensures r == Ok(Deliver) ==> store.tokens == Consume(old(store.tokens), token)
    ensures r != Ok(Deliver) ==> store.tokens == old(store.tokens)
    ensures store.users == old(store.users) && store.nextId == old(store.nextId) && store.online == old(store.online)
      && store.purchases == old(store.purchases) && store.access == old(store.access) && store.resets == old(store.resets)
      && store.courses == old(store.courses) && store.books == old(store.books)
  {
    var found := store.FindToken(token);
    if found.Err? { return Err(found.error); }
    if found.value.None? { return Ok(UnknownLink); }
    var doc := found.value.value;
    if doc.used { return Ok(AlreadyUsed); }
    if doc.expiresAt < now { return Ok(LinkExpired); }
    var saved := store.SaveToken(doc.(used := true));
    if saved.Err? { return Err(Unavailable); }
    return Ok(Deliver);
  }

  /** A second download of the same link is refused with "ya usado". */
  lemma SecondDownloadRefused(tokens: map<string, DownloadToken>, token: string, later: Millis)
    requires token in tokens
    ensures Classify(Consume(tokens, token), token, later) == AlreadyUsed
  {
  }
}
