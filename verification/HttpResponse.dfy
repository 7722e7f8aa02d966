/**
 The response of an HTTP client as the source keeps it (src/flb_http_client.c): one buffer,
 compacted in place, with offsets to the end of the headers and of the decoded bytes.
 */
module HttpResponse {
  import opened HttpChunked
  import opened Seqs

  lemma Slices(r: string, header: nat, size: nat)
    requires header + size + 2 <= |r|
    ensures r[header..][..size] == r[header..header + size] && r[header..][size..][2..] == r[header + size + 2..]
  {
  }

  lemma Grows(front: string, at: nat, more: string)
    requires at <= |front|
    ensures (front + more)[..at] == front[..at] && (front + more)[at..] == front[at..] + more
  {
  }

  /** `flb_http_response`, with its pointers as offsets into the buffer. */
  class Response {
    var data: array<char>
    var dataLen: nat
    var headersEnd: nat
    var chunkEnd: nat  // chunk_processed_end
    var payload: bool  // whether the payload has been marked
    var payloadSize: nat

    ghost predicate Valid()
      reads this, data
    {
      headersEnd <= chunkEnd <= dataLen < data.Length && data[dataLen] == '\0'
    }

    ghost function Headers(): (s: string)
      requires Valid()
      reads this, data
    {
      data[..headersEnd]
    }

    ghost function Payload(): (s: string)
      requires Valid()
      reads this, data
    {
      data[headersEnd..chunkEnd]
    }

    ghost function Raw(): (s: string)
      requires Valid()
      reads this, data
    {
      data[chunkEnd..dataLen]
    }

    ghost function Front(): (s: string)
      requires Valid()
      reads this, data
    {
      data[..chunkEnd]
    }

    /** The headers and the payload are the two halves of the front. */
    lemma FrontHalves()
      requires Valid()
      ensures Headers() == Front()[..headersEnd] && Payload() == Front()[headersEnd..]
      ensures Headers() + Payload() == Front()
    {
    }

    /** A response whose headers have been read and whose body starts here. */
    constructor (headers: string)
      ensures Valid() && fresh(data) && Headers() == headers && Payload() == "" && Raw() == ""
      ensures !payload && payloadSize == 0
    {
      var n := |headers|;
      data := new char[n + 1](i requires 0 <= i => if i < n then headers[i] else '\0');
      dataLen, headersEnd, chunkEnd, payload, payloadSize := n, n, n, false, 0;
    }

    /** `flb_http_buffer_increase`: the offsets survive the move. */
    method Increase(size: nat)
      requires Valid()
      modifies this`data
      ensures Valid() && fresh(data) && data.Length == old(data.Length) + size
      ensures Headers() == old(Headers()) && Payload() == old(Payload()) && Raw() == old(Raw())
    {
      var from := data;
      data := new char[from.Length + size](i requires 0 <= i reads from => if i < from.Length then from[i] else '\0');
      assert Headers() == from[..headersEnd];
      assert Payload() == from[headersEnd..chunkEnd];
      assert Raw() == from[chunkEnd..dataLen];
    }

    /** The bytes of one read are appended, and a NUL after them. */
    method Receive(bytes: string)
      requires Valid() && dataLen + |bytes| < data.Length
      modifies this`dataLen, data
      ensures Valid()
      ensures Headers() == old(Headers()) && Payload() == old(Payload()) && Raw() == old(Raw()) + bytes
    {
      ghost var before := data[..dataLen];
      Pieces(before);
      for i := 0 to |bytes|
        invariant dataLen == old(dataLen) && data[..dataLen] == before && data[dataLen..dataLen + i] == bytes[..i]
      {
        data[dataLen + i] := bytes[i];
      }
      assert bytes[..|bytes|] == bytes;
      dataLen := dataLen + |bytes|;
      ghost var all := data[..dataLen];
      assert all == before + bytes;
      data[dataLen] := '\0';
      assert data[..dataLen] == all;
      Pieces(all);
      Grows(before, headersEnd, bytes);
      Grows(before, chunkEnd, bytes);
      assert all[headersEnd..chunkEnd] == before[headersEnd..chunkEnd];
    }

    /** The parts of the buffer, cut from all of it. */
    lemma Pieces(all: string)
      requires Valid() && all == data[..dataLen]
      ensures Headers() == all[..headersEnd] && Payload() == all[headersEnd..chunkEnd] && Raw() == all[chunkEnd..]
    {
    }

    /** `consume_bytes`: drops bytes at `at` by moving the rest down, and re-terminates. */
    method Consume(at: nat, bytes: nat)
      requires at + bytes <= dataLen < data.Length
      modifies this`dataLen, data
      ensures dataLen == old(dataLen) - bytes && data[dataLen] == '\0'
      ensures data[..at] == old(data[..at])
      ensures data[at..dataLen] == old(data[at + bytes..dataLen])
    {
      for i := 0 to dataLen - at - bytes
        invariant dataLen == old(dataLen)
        invariant data[..at] == old(data[..at])
        invariant data[at..at + i] == old(data[at + bytes..at + bytes + i])
        invariant data[at + i..] == old(data[at + i..])
      {
        assert data[at + bytes + i] == data[at + i..][bytes];
        data[at + i] := data[at + bytes + i];
      }
      dataLen := dataLen - bytes;
      data[dataLen] := '\0';
    }

    /** Drops the header of a chunk: the undecoded bytes go on after it. */
    method DropHeader(header: nat)
      requires Valid() && header <= |Raw()|
      modifies this`dataLen, data
      ensures Valid() && Front() == old(Front()) && Raw() == old(Raw())[header..]
    {
      assert data[chunkEnd + header..dataLen] == Raw()[header..];
      Consume(chunkEnd, header);
    }

    /** The next `size` bytes become payload. */
    method Advance(size: nat)
      requires Valid() && size <= |Raw()|
      modifies this`chunkEnd
      ensures Valid() && Front() == old(Front()) + old(Raw())[..size] && Raw() == old(Raw())[size..]
    {
      chunkEnd := chunkEnd + size;
    }

    method TakeFront(header: nat, size: nat)
      requires Valid() && header + size + 2 <= |Raw()|
      modifies this`dataLen, this`chunkEnd, data
      ensures Valid() && Front() == old(Front()) + old(Raw())[header..][..size]
      ensures Raw() == old(Raw())[header..][size..][2..]
    {
      DropHeader(header);
      Advance(size);
      DropHeader(2);
    }

    /** Drops the chunk header, keeps the data, drops the two bytes after it. */
    method TakeChunk(header: nat, size: nat)
      requires Valid() && header + size + 2 <= |Raw()|
      modifies this`dataLen, this`chunkEnd, data
      ensures Valid() && Front() == old(Front()) + old(Raw())[header..header + size]
      ensures Raw() == old(Raw())[header + size + 2..]
    {
      Slices(Raw(), header, size);
      TakeFront(header, size);
    }

    /** One turn of the loop: `go` is the jump back to its start. */
    method ProcessOne(next: Recogniser) returns (go: bool, status: Status, ghost piece: string)
      requires Valid() && Recognises(next)
      modifies this`dataLen, this`chunkEnd, this`payloadSize, data
      ensures Valid() && Front() == old(Front()) + piece
      ensures go ==> |Raw()| < |old(Raw())| && payloadSize == old(payloadSize) &&
                     var d := Decode(next, Front(), Raw());
                     Decode(next, old(Front()), old(Raw())) == d.(out := piece + d.out)
      ensures !go ==> Decode(next, old(Front()), old(Raw())) == Decoded(piece, Raw(), status) &&
                      payloadSize == if status == Ok then dataLen - headersEnd else old(payloadSize)
    {
      var f, r := data[..chunkEnd], data[chunkEnd..dataLen];
      var c := next(f, r);
      Within(next, f, r);
      go, status, piece := false, More, "";
      match c
      case Incomplete => status := More;
      case Invalid => status := Error;
      case Outside => status := Stray;
      case Last(header) =>
        TakeChunk(header, 0);
        payloadSize := dataLen - headersEnd;
        status := Ok;
      case Data(header, size) => go, piece := TakeData(next, header, size);
      case Skewed(header, size) =>
        if |r| < header + size + 2 {
          status := Fault;
        } else {
          go, piece := TakeData(next, header, size);
        }
    }

    /** A chunk with data: on to the next one if there are bytes left. */
    method TakeData(next: Recogniser, header: nat, size: nat) returns (go: bool, ghost piece: string)
      requires Valid() && Recognises(next) && Takes(next, Front(), Raw(), header, size)
      modifies this`dataLen, this`chunkEnd, data
      ensures Valid() && Front() == old(Front()) + piece
      ensures |Raw()| < |old(Raw())| && (!go ==> Raw() == "")
      ensures var d := Decode(next, Front(), Raw());
              Decode(next, old(Front()), old(Raw())) == d.(out := piece + d.out)
      ensures !go ==> Decode(next, old(Front()), old(Raw())) == Decoded(piece, "", More)
    {
      ghost var f, r := Front(), Raw();
      piece := r[header..header + size];
      DecodeData(next, f, r, header, size, piece, r[header + size + 2..]);
      TakeChunk(header, size);
      go := dataLen - chunkEnd > 0;
      Within(next, f + piece, "");
      assert piece + "" == piece;
    }

    /** `process_chunked_data`, with `next` for the examination of the next chunk. */
    method ProcessWith(next: Recogniser) returns (status: Status)
      requires Valid() && Recognises(next)
      modifies this`dataLen, this`chunkEnd, this`payloadSize, data
      ensures Valid() && Headers() == old(Headers())
      ensures var d := Decode(next, old(Front()), old(Raw()));
              Payload() == old(Payload()) + d.out && Raw() == d.rest && status == d.status
      ensures payloadSize == if status == Ok then |Payload()| + |Raw()| else old(payloadSize)
    {
      FrontHalves();
      ghost var f, done, piece := Front(), "", "";
      var go := true;
      status := More;
      while go
        invariant Valid() && Front() == f + done
        invariant go ==> payloadSize == old(payloadSize) &&
                         var d := Decode(next, Front(), Raw());
                         Decode(next, f, old(Raw())) == d.(out := done + d.out)
        invariant !go ==> Decode(next, f, old(Raw())) == Decoded(done, Raw(), status) &&
                          payloadSize == if status == Ok then dataLen - headersEnd else old(payloadSize)
        decreases go, |Raw()|
      {
        go, status, piece := ProcessOne(next);
        Reassociate(f, done, piece);
        Reassociate(done, piece, Decode(next, Front(), Raw()).out);
        done := done + piece;
      }
      Grows(f, headersEnd, done);
      FrontHalves();
    }

    method Process() returns (status: Status)
      requires Valid()
      modifies this`dataLen, this`chunkEnd, this`payloadSize, data
      ensures Valid() && Headers() == old(Headers())
      ensures var d := DecodeRaw(old(Front()), old(Raw()));
              Payload() == old(Payload()) + d.out && Raw() == d.rest && status == d.status
      ensures payloadSize == if status == Ok then |Payload()| + |Raw()| else old(payloadSize)
    {
      NextChunkRecognises();
      status := ProcessWith(NextChunk);
    }

    /** The end of `process_data` for a chunked response whose headers are in. */
    method ProcessData(next: Recogniser) returns (status: Status)
      requires Valid() && Recognises(next)
      modifies this`dataLen, this`chunkEnd, this`payloadSize, data
      ensures Valid() && Headers() == old(Headers())
      ensures !payload ==>
                && status == Ok && Payload() == old(Payload()) && Raw() == old(Raw())
                && payloadSize == old(payloadSize)
      ensures payload ==>
                var d := Decode(next, old(Front()), old(Raw()));
                && Payload() == old(Payload()) + d.out && Raw() == d.rest && status == d.status
                && payloadSize == if status == Ok then |Payload()| + |Raw()| else old(payloadSize)
    {
      if payload {
        status := ProcessWith(next);
      } else {
        status := Ok;
      }
    }

    /** One read: enlarges the buffer if needed, and appends. */
    method Read(bytes: string)
      requires Valid()
      modifies this`data, this`dataLen, data
      ensures Valid() && (data == old(data) || fresh(data))
      ensures Headers() == old(Headers()) && Payload() == old(Payload()) && Raw() == old(Raw()) + bytes
    {
      if data.Length - dataLen <= |bytes| {
        Increase(|bytes|);
      }
      Receive(bytes);
    }

    /** One read and one call. */
    method ReadOne(next: Recogniser, bytes: string) returns (status: Status)
      requires Valid() && payload && Recognises(next)
      modifies this`data, this`dataLen, this`chunkEnd, this`payloadSize, data
      ensures Valid() && Headers() == old(Headers()) && (data == old(data) || fresh(data))
      ensures Decoded(Payload(), Raw(), status) ==
              Later(next, Headers(), Decoded(old(Payload()), old(Raw()), More), bytes)
      ensures status == Ok ==> payloadSize == |Payload()| + |Raw()|
    {
      Read(bytes);
      FrontHalves();
      status := ProcessData(next);
    }

    /** Reads until a call decides. */
    method ReadMore(next: Recogniser, pieces: seq<string>) returns (status: Status)
      requires Valid() && payload && Recognises(next)
      modifies this, data
      ensures Valid() && Headers() == old(Headers())
      ensures Decoded(Payload(), Raw(), status) ==
              DecodeReads(next, Headers(), Decoded(old(Payload()), old(Raw()), More), pieces)
      ensures status == Ok ==> payloadSize == |Payload()| + |Raw()|
    {
      status := More;
      ghost var head, d := Headers(), Decoded(Payload(), Raw(), More);
      ghost var whole := DecodeReads(next, head, d, pieces);
      assert pieces[0..] == pieces;
      var i := 0;
      while i < |pieces| && status == More
        invariant i <= |pieces| && Valid() && payload && Headers() == head
        invariant data == old(data) || fresh(data)
        invariant d == Decoded(Payload(), Raw(), status) && DecodeReads(next, head, d, pieces[i..]) == whole
        invariant status == Ok ==> payloadSize == |Payload()| + |Raw()|
        decreases |pieces| - i
      {
        assert pieces[i..][0] == pieces[i] && pieces[i..][1..] == pieces[i + 1..];
        d := Later(next, head, d, pieces[i]);
        status := ReadOne(next, pieces[i]);
        i := i + 1;
      }
    }

    /**
     The read loop of `flb_http_do` for a chunked response, from the read that completes the
     headers on: the payload is marked only if that read held more.
     */
    method ReadBody(pieces: seq<string>) returns (status: Status)
      requires Valid() && Payload() == "" && Raw() == "" && !payload && payloadSize == 0 && pieces != []
      modifies this, data
      ensures Valid() && Headers() == old(Headers()) && Recognises(NextChunk)
      ensures Decoded(Payload(), Raw(), status) == DecodeBody(NextChunk, Headers(), pieces)
      ensures status == Ok ==> payloadSize == |Payload()| + |Raw()|
    {
      NextChunkRecognises();
      if pieces[0] != "" {
        payload := true;
        status := ReadMore(NextChunk, pieces);
      } else {
        status := ProcessData(NextChunk);
      }
    }

    /**
     A whole stream, in any pieces: the payload is the data of its chunks and its size is
     recorded, except that nothing is read when the headers end a read.
     */
    method ReadStream(ghost cs: seq<Sent>, pieces: seq<string>) returns (status: Status)
      requires Valid() && Payload() == "" && Raw() == "" && !payload && payloadSize == 0
      requires GoodChunks(cs) && Concat(pieces) == Stream(cs)
      modifies this, data
      ensures Valid() && Headers() == old(Headers()) && pieces != []
      ensures status == Ok && Raw() == "" && payloadSize == |Payload()|
      ensures Payload() == if pieces[0] == "" then "" else DataOf(cs)
    {
      BodyExactly(Headers(), cs, pieces);
      status := ReadBody(pieces);
    }
  }
}
