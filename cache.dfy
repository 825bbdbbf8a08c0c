// Where the importers get their supplier documents from: a copy kept in the
// uploads directory, or the supplier's HTTP API or FTP server.  Decoding a
// document (SimpleXML, json_decode) is not modelled; a document carries what
// decoding it yields.

module Cache {
  import opened Php
  import opened Records

  /** `strtotime('-1 day')` is taken as now minus 86400 seconds. */
  const Day := 86400

  /** A document: its raw text and what decoding it yields (None: the decoder fails). */
  datatype Blob = Blob(raw: string, decoded: Option<seq<Record>>)

  /** A local copy of a document and its modification time. */
  datatype LocalFile = LocalFile(mtime: int, content: Blob)

  /** `wp_remote_get`: a WP_Error, or a status code and a body. */
  datatype HttpReply = HttpDown | HttpOk(code: int, body: Blob)

  /** The FTP helper: no connection, no such remote file, or the downloaded file. */
  datatype FtpReply = FtpDown | FtpNoFile | FtpFile(content: Blob)

  /** What a fetch returns, the local copy afterwards, and whether the server was asked. */
  datatype Fetch = Fetch(data: Option<seq<Record>>, file: Option<LocalFile>, remote: bool)

  /** `file_exists($f) && filemtime($f) > strtotime('-1 day')`. */
  predicate Fresh(file: Option<LocalFile>, now: int)
  {
    file.Some? && file.value.mtime > now - Day
  }

  /** A reply the HTTP branch of PAR's fetch accepts: status 200 and a non-empty body. */
  predicate Accepted(reply: HttpReply)
  {
    reply.HttpOk? && reply.code == 200 && Truthy(reply.body.raw)
  }

  /** PAR's fetch answers from its local copy: fresh, and decodable (XML) or non-empty (JSON). */
  predicate UsesLocalCopy(xml: bool, file: Option<LocalFile>, now: int)
  {
    Fresh(file, now) && (if xml then file.value.content.decoded.Some? else Truthy(file.value.content.raw))
  }

  /**
   * PAR's `get_products_data`.  A fresh local XML copy is used when it
   * decodes; a fresh local JSON copy is used whenever its text is non-empty,
   * even when it does not decode.  Otherwise the API is asked; an accepted
   * reply is written to the local copy before it is decoded.
   */
  function ParProducts(xml: bool, file: Option<LocalFile>, now: int, reply: HttpReply): (r: Fetch)
    ensures Fresh(file, now) && xml && file.value.content.decoded.Some? ==>
      r == Fetch(file.value.content.decoded, file, false)
    ensures Fresh(file, now) && !xml && Truthy(file.value.content.raw) ==>
      r == Fetch(file.value.content.decoded, file, false)
    ensures r.remote <==> !UsesLocalCopy(xml, file, now)
    ensures r.remote && Accepted(reply) ==> r.file == Some(LocalFile(now, reply.body)) && r.data == reply.body.decoded
    ensures r.remote && !Accepted(reply) ==> r.file == file && r.data.None?
  {
    if Fresh(file, now) && xml && file.value.content.decoded.Some? then
      Fetch(file.value.content.decoded, file, false)
    else if Fresh(file, now) && !xml && Truthy(file.value.content.raw) then
      Fetch(file.value.content.decoded, file, false)
    else if !Accepted(reply) then
      Fetch(None, file, true)
    else
      Fetch(reply.body.decoded, Some(LocalFile(now, reply.body)), true)
  }

  /**
   * Once PAR's fetch has stored an accepted reply that decodes, a fetch
   * within the next day uses the stored copy and does not ask the API again.
   */
  lemma {:induction false} ParCacheReused(xml: bool, file: Option<LocalFile>, now: int, reply: HttpReply,
                                          later: int, reply2: HttpReply)
    requires Accepted(reply) && reply.body.decoded.Some?
    requires ParProducts(xml, file, now, reply).remote
    requires now <= later < now + Day
    ensures ParProducts(xml, ParProducts(xml, file, now, reply).file, later, reply2)
         == Fetch(reply.body.decoded, Some(LocalFile(now, reply.body)), false)
  {
    var f := ParProducts(xml, file, now, reply).file;
    assert f == Some(LocalFile(now, reply.body));
    assert Fresh(f, later);
  }

  /**
   * AXPOL's and Inspirion's `get_products_data`: a fresh local copy that
   * decodes, or else the file downloaded by FTP (the download replaces the
   * local copy, which is then decoded).
   */
  function FtpProducts(file: Option<LocalFile>, now: int, reply: FtpReply): (r: Fetch)
    ensures r.remote <==> !(Fresh(file, now) && file.value.content.decoded.Some?)
    ensures !r.remote ==> r.data == file.value.content.decoded && r.file == file
    ensures r.remote && reply.FtpFile? ==> r.file == Some(LocalFile(now, reply.content)) && r.data == reply.content.decoded
    ensures r.remote && !reply.FtpFile? ==> r.file == file && r.data.None?
  {
    if Fresh(file, now) && file.value.content.decoded.Some? then Fetch(file.value.content.decoded, file, false)
    else if reply.FtpFile? then Fetch(reply.content.decoded, Some(LocalFile(now, reply.content)), true)
    else Fetch(None, file, true)
  }

  /** A stale local copy never stops the FTP fetch from asking the server. */
  lemma {:induction false} FtpStaleAsks(file: Option<LocalFile>, now: int, reply: FtpReply)
    requires file.Some? && file.value.mtime <= now - Day
    ensures FtpProducts(file, now, reply).remote
  {
  }

  /** What Macma's `get_xml_data` returns and the local copy it leaves. */
  datatype MacmaFetchResult = MacmaFetchResult(data: Option<seq<Record>>, file: Option<Blob>)

  /**
   * Macma's `get_xml_data`: a local copy is used whatever its age; otherwise
   * the body of any reply (the status code is not looked at) is stored when
   * it is non-empty.  A non-empty text is then decoded.
   */
  function MacmaXml(file: Option<Blob>, reply: HttpReply): (r: MacmaFetchResult)
    ensures file.Some? ==> r.file == file && r.data == (if Truthy(file.value.raw) then file.value.decoded else None)
    ensures file.None? && reply.HttpOk? && Truthy(reply.body.raw) ==>
      r.file == Some(reply.body) && r.data == reply.body.decoded
    ensures file.None? && !(reply.HttpOk? && Truthy(reply.body.raw)) ==> r == MacmaFetchResult(None, None)
  {
    if file.Some? then
      MacmaFetchResult(if Truthy(file.value.raw) then file.value.decoded else None, file)
    else if reply.HttpDown? then MacmaFetchResult(None, None)
    else if Truthy(reply.body.raw) then MacmaFetchResult(reply.body.decoded, Some(reply.body))
    else MacmaFetchResult(None, None)
  }

  /** Fetching again with the same reply returns what the first fetch returned. */
  lemma {:induction false} MacmaXmlRepeatable(file: Option<Blob>, reply: HttpReply)
    ensures MacmaXml(MacmaXml(file, reply).file, reply).data == MacmaXml(file, reply).data
  {
  }

  /**
   * Once a body has been stored, whatever the server answers later is never
   * read again, even when the stored body came with an error status.
   */
  lemma {:induction false} MacmaXmlSticky(reply: HttpReply, reply2: HttpReply)
    requires reply.HttpOk? && reply.code != 200 && Truthy(reply.body.raw)
    ensures MacmaXml(MacmaXml(None, reply).file, reply2) == MacmaXml(None, reply)
  {
  }

  /**
   * PAR's `get_stocks_data` before its entries are collected: the API reply
   * must have status 200, a non-empty body, and decode.
   */
  function ParStockRows(reply: HttpReply): (r: Option<seq<Record>>)
    ensures r.Some? <==> Accepted(reply) && reply.body.decoded.Some?
    ensures r.Some? ==> r == reply.body.decoded
  {
    if Accepted(reply) then reply.body.decoded else None
  }
}
