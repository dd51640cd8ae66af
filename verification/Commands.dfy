// The interaction command and the metadata getters of repository.go.
module Commands {
  import opened Text
  import opened Wrappers

  // A decoded JSON value, as far as the getters distinguish them.
  datatype Value = Text(text: string) | Number(number: real) | Items(items: seq<Value>) | Other

  type Metadata = Option<map<string, Value>>

  datatype Command = Command(
    sessionId: string,
    userId: string,
    route: string,
    surface: string,
    action: string,
    subjectType: string,
    subjectId: string,
    campaignId: string,
    recipientId: string,
    eventKind: string,
    metadata: Metadata
  )

  function MetadataString(metadata: Metadata, key: string, fallback: string): string {
    if metadata.Some? && key in metadata.value && metadata.value[key].Text? && !Blank(metadata.value[key].text)
    then TrimSpace(metadata.value[key].text)
    else fallback
  }

  // Go's conversion of a float to an integer.
  function Truncate(r: real): int {
    if r >= 0.0 then r.Floor else -((-r).Floor)
  }

  function MetadataInt(metadata: Metadata, key: string, fallback: int): int {
    if metadata.Some? && key in metadata.value && metadata.value[key].Number?
    then Truncate(metadata.value[key].number)
    else fallback
  }

  // The non-blank texts of a list, trimmed, in order.
  function CleanTexts(values: seq<Value>): (texts: seq<string>)
    ensures forall t :: t in texts ==> t != "" && Trimmed(t)
  {
    if values == [] then []
    else
      var init, last := values[..|values| - 1], values[|values| - 1];
      if last.Text? && !Blank(last.text)
      then TrimSpaceTrims(last.text); CleanTexts(init) + [TrimSpace(last.text)]
      else CleanTexts(init)
  }

  function StringsOf(metadata: Metadata, key: string, fallback: seq<string>): seq<string> {
    if metadata.Some? && key in metadata.value && metadata.value[key].Items?
       && CleanTexts(metadata.value[key].items) != []
    then CleanTexts(metadata.value[key].items)
    else fallback
  }

  // ---------- what the getters read, place by place ----------

  predicate IsText(v: Value) {
    v.Text? && !Blank(v.text)
  }

  // All the places of non-blank texts, from first to last.
  ghost predicate Places(values: seq<Value>, places: seq<nat>) {
    && (forall k :: 0 <= k < |places| ==> places[k] < |values| && IsText(values[places[k]]))
    && (forall k, l :: 0 <= k < l < |places| ==> places[k] < places[l])
    && (forall i :: 0 <= i < |values| && IsText(values[i]) ==> i in places)
  }

  // The trimmed texts of the places, in their order.
  ghost predicate TextsAt(values: seq<Value>, places: seq<nat>, texts: seq<string>) {
    && Places(values, places)
    && |texts| == |places|
    && (forall k :: 0 <= k < |places| ==> texts[k] == TrimSpace(values[places[k]].text))
  }

  // A list of texts is read from the places of the metadata's list; without a list, or with no text in
  // it, the fallback is.
  ghost predicate ReadsList(metadata: Metadata, key: string, fallback: seq<string>, texts: seq<string>) {
    if metadata.Some? && key in metadata.value && metadata.value[key].Items?
       && exists i :: 0 <= i < |metadata.value[key].items| && IsText(metadata.value[key].items[i])
    then exists places :: TextsAt(metadata.value[key].items, places, texts)
    else texts == fallback
  }

  ghost predicate ReadsText(metadata: Metadata, key: string, fallback: string, text: string) {
    if metadata.Some? && key in metadata.value && IsText(metadata.value[key])
    then text == TrimSpace(metadata.value[key].text)
    else text == fallback
  }

  // A number loses its fraction, towards zero.
  ghost predicate ReadsCount(metadata: Metadata, key: string, fallback: int, count: int) {
    if metadata.Some? && key in metadata.value && metadata.value[key].Number?
    then
      var n := metadata.value[key].number;
      if n >= 0.0 then count as real <= n < count as real + 1.0 else count as real - 1.0 < n <= count as real
    else count == fallback
  }

  lemma TextsAtSnoc(values: seq<Value>, places: seq<nat>, texts: seq<string>, v: Value)
    requires TextsAt(values, places, texts)
    ensures if IsText(v) then TextsAt(values + [v], places + [|values|], texts + [TrimSpace(v.text)])
            else TextsAt(values + [v], places, texts)
  {
    PlacesSnoc(values, places, v);
  }

  lemma PlacesSnoc(values: seq<Value>, places: seq<nat>, v: Value)
    requires Places(values, places)
    ensures Places(values + [v], if IsText(v) then places + [|values|] else places)
  {
    var all, after := values + [v], if IsText(v) then places + [|values|] else places;
    forall i | 0 <= i < |all| && IsText(all[i])
      ensures i in after
    {
      if i < |values| {
        assert values[i] == all[i] && i in places;
      } else {
        assert after[|places|] == i;
      }
    }
  }

  lemma {:induction false} CleanTextsAt(values: seq<Value>) returns (places: seq<nat>)
    ensures TextsAt(values, places, CleanTexts(values))
  {
    if values == [] {
      places := [];
    } else {
      var init, last := values[..|values| - 1], values[|values| - 1];
      places := CleanTextsAt(init);
      assert values == init + [last];
      TextsAtSnoc(init, places, CleanTexts(init), last);
      if IsText(last) {
        places := places + [|init|];
      }
    }
  }

  lemma PlacesHold(values: seq<Value>, places: seq<nat>)
    requires Places(values, places) && places != []
    ensures exists i :: 0 <= i < |values| && IsText(values[i])
  {
    assert IsText(values[places[0]]);
  }

  lemma StringsAreRead(metadata: Metadata, key: string, fallback: seq<string>)
    ensures ReadsList(metadata, key, fallback, StringsOf(metadata, key, fallback))
  {
    if metadata.Some? && key in metadata.value && metadata.value[key].Items? {
      var items := metadata.value[key].items;
      var places := CleanTextsAt(items);
      if places != [] {
        PlacesHold(items, places);
      }
      if i :| 0 <= i < |items| && IsText(items[i]) {
        assert i in places;
      }
    }
  }

  lemma StringIsRead(metadata: Metadata, key: string, fallback: string)
    ensures ReadsText(metadata, key, fallback, MetadataString(metadata, key, fallback))
  {
  }

  lemma IntIsRead(metadata: Metadata, key: string, fallback: int)
    ensures ReadsCount(metadata, key, fallback, MetadataInt(metadata, key, fallback))
  {
  }

  method MetadataStrings(metadata: Metadata, key: string, fallback: seq<string>) returns (texts: seq<string>)
    ensures texts == StringsOf(metadata, key, fallback)
    ensures ReadsList(metadata, key, fallback, texts)
  {
    StringsAreRead(metadata, key, fallback);
    if metadata.None? || key !in metadata.value || !metadata.value[key].Items? {
      return fallback;
    }
    var result := CollectTexts(metadata.value[key].items);
    texts := if result == [] then fallback else result;
  }

  // The loop of metadataStrings.
  method CollectTexts(values: seq<Value>) returns (result: seq<string>)
    ensures result == CleanTexts(values)
  {
    result := [];
    for i := 0 to |values|
      invariant result == CleanTexts(values[..i])
    {
      assert values[..i + 1][..i] == values[..i];
      if values[i].Text? {
        var text := TrimSpace(values[i].text);
        if text != "" {
          result := result + [text];
        }
      }
    }
    assert values[..|values|] == values;
  }

  // The first non-blank value: untrimmed in service.go and event_gateway.go, trimmed in repository.go.
  function FirstNonBlank(values: seq<string>): string {
    if values == [] then "" else if !Blank(values[0]) then values[0] else FirstNonBlank(values[1..])
  }
}
