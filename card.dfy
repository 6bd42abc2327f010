/**
 * The Trello card built at the end of a successful run: its title
 * (`create_card_title`), its description (`create_card_discript`) and the
 * query parameters of the create request (`create_trello_card`).
 */
module Card {
  import opened PySemantics

  const TitlePrefix := "[Rusuden]"
  const TitleSuffix := " 着信"

  /**
   * `create_card_title`: read the first twelve characters of the attachment
   * filename as `YYYYMMDDHHmm` and lay them out as `YYYY/MM/DD HH:mm`.
   * Slices clamp, so a short filename gives short fields and no error.
   */
  function CardTitle(fn: string): (title: string)
    ensures |title| == |TitlePrefix| + Clamp(12, |fn|) + 4 + |TitleSuffix|
    ensures title[..|TitlePrefix|] == TitlePrefix
    ensures title[|title| - |TitleSuffix|..] == TitleSuffix
  {
    TitlePrefix + Slice(fn, 0, 4) + "/" + Slice(fn, 4, 6) + "/" + Slice(fn, 6, 8) + " " +
    Slice(fn, 8, 10) + ":" + Slice(fn, 10, 12) + TitleSuffix
  }

  /** The compact timestamp read back from a title: the inverse of CardTitle on long filenames. */
  function TitleStamp(title: string): (stamp: string)
    requires |title| >= 25
    ensures |stamp| == 12
  {
    title[9..13] + title[14..16] + title[17..19] + title[20..22] + title[23..25]
  }

  /** For a filename of at least twelve characters, the title lays them out at fixed positions. */
  lemma CardTitleLayout(fn: string)
    requires |fn| >= 12
    ensures CardTitle(fn) == TitlePrefix + fn[0..4] + "/" + fn[4..6] + "/" + fn[6..8] + " " +
                             fn[8..10] + ":" + fn[10..12] + TitleSuffix
  {
  }

  /** The title holds the whole twelve-character timestamp: it can be read back exactly. */
  lemma TitleStampRoundTrip(fn: string)
    requires |fn| >= 12
    ensures |CardTitle(fn)| == 28
    ensures TitleStamp(CardTitle(fn)) == fn[..12]
  {
    CardTitleLayout(fn);
    var t := CardTitle(fn);
    assert t[9..13] == fn[0..4];
    assert t[14..16] == fn[4..6];
    assert t[17..19] == fn[6..8];
    assert t[20..22] == fn[8..10];
    assert t[23..25] == fn[10..12];
    assert fn[..12] == fn[0..4] + fn[4..6] + fn[6..8] + fn[8..10] + fn[10..12];
  }

  /** The title depends on the first twelve characters of the filename only. */
  lemma CardTitleReadsTwelveCharacters(fn: string)
    ensures CardTitle(fn) == CardTitle(fn[..Clamp(12, |fn|)])
  {
    var n := Clamp(12, |fn|);
    var head := fn[..n];
    forall lo: nat, hi: nat | lo <= hi <= 12
      ensures Slice(fn, lo, hi) == Slice(head, lo, hi)
    {
      assert forall k :: 0 <= k < n ==> fn[k] == head[k];
    }
  }

  /** The example of the source's own comment. */
  lemma CardTitleExample()
    ensures CardTitle("20200201120530.wav") == "[Rusuden]2020/02/01 12:05 着信"
  {
    CardTitleLayout("20200201120530.wav");
  }

  /** A filename shorter than the timestamp gives a truncated title rather than an error. */
  lemma CardTitleShortFilename()
    ensures CardTitle("2020") == "[Rusuden]2020// : 着信"
    ensures CardTitle("") == "[Rusuden]// : 着信"
  {
  }

  /** `create_card_discript`: the transcript, a blank line, then the mail body. */
  function CardDescription(transcript: string, content: string): (desc: string)
    ensures |desc| == |transcript| + 2 + |content|
    ensures desc[..|transcript|] == transcript
    ensures desc[|transcript|..|transcript| + 2] == "\n\n"
    ensures desc[|transcript| + 2..] == content
  {
    transcript + "\n\n" + content
  }

  /** The four values `parse_environment_values` reads from the environment. */
  datatype TrelloConfig = TrelloConfig(endpoint: string, key: string, token: string, idList: string)

  const CardParamKeys := ["key", "token", "idList", "pos", "name", "desc"]

  /** The query parameters of the create-card request, in the order the source lists them. */
  function CardParams(config: TrelloConfig, title: string, desc: string): (params: seq<(string, string)>)
    ensures |params| == |CardParamKeys|
    ensures forall k :: 0 <= k < |params| ==> params[k].0 == CardParamKeys[k]
    ensures params[0].1 == config.key && params[1].1 == config.token && params[2].1 == config.idList
    ensures params[3].1 == "top" && params[4].1 == title && params[5].1 == desc
  {
    [("key", config.key), ("token", config.token), ("idList", config.idList),
     ("pos", "top"), ("name", title), ("desc", desc)]
  }
}
