/** The phish.net payload and its mapper (internal/services/phishnet). */
module PhishNet {
  import opened Common
  import opened Models

  /** One setlist row of the phish.net response, with the fields the service reads. */
  datatype PNData = PNData(
    showdate: string,
    songid: string,
    tracktime: string,
    gap: string,
    song: string,
    venue: string)

  /** The decoded phish.net response: its error flag, error text and rows. */
  datatype PNShowResponse = PNShowResponse(error: bool, errorMessage: string, data: seq<PNData>)

  /** Mapper.PhishNetResponseToShowResponse: venue and date from the first
      row when there is one, then one song per row, in row order, with all
      four song fields copied. The message is left empty. */
  method PhishNetResponseToShowResponse(pnResponse: PNShowResponse) returns (response: GetShowResponse)
    ensures response.message == EmptyMessage
    ensures pnResponse.data == [] ==> response.show == EmptyShow
    ensures pnResponse.data != [] ==>
              response.show.venue == pnResponse.data[0].venue && response.show.date == pnResponse.data[0].showdate
    ensures |response.show.songs| == |pnResponse.data|
    ensures forall i :: 0 <= i < |pnResponse.data| ==>
              response.show.songs[i] ==
                Song(pnResponse.data[i].songid, pnResponse.data[i].song, pnResponse.data[i].tracktime, pnResponse.data[i].gap)
  {
    var show := EmptyShow;
    if |pnResponse.data| > 0 {
      show := show.(venue := pnResponse.data[0].venue);
      show := show.(date := pnResponse.data[0].showdate);
      for i := 0 to |pnResponse.data|
        invariant show.venue == pnResponse.data[0].venue && show.date == pnResponse.data[0].showdate
        invariant |show.songs| == i
        invariant forall j :: 0 <= j < i ==>
                    show.songs[j] ==
                      Song(pnResponse.data[j].songid, pnResponse.data[j].song, pnResponse.data[j].tracktime, pnResponse.data[j].gap)
      {
        var data := pnResponse.data[i];
        show := show.(songs := show.songs + [Song(data.songid, data.song, data.tracktime, data.gap)]);
      }
    }
    response := GetShowResponse(show, EmptyMessage);
  }
}
