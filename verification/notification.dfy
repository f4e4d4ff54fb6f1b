/** The notification email of a run: either the status-check message of a manual run
    that found nothing, or the list of new models. The fixed template text of the
    bodies is not spelled out; a body keeps what varies in it. */
module Notification {
  import opened Wrappers
  import opened Text
  import opened Delta

  /** Subject of the status-check email. */
  const StatusSubject: string := "\U{2705} Bedrock Model Monitor - 動作確認"
  /** Subject of the new-models email: this prefix, the count, this suffix. */
  const NewModelsSubjectPrefix: string := "\U{1F389} Bedrock新モデル検出: "
  const NewModelsSubjectSuffix: string := "件"

  /** Separators: between modalities, and the blank line between model entries. */
  const ModalitySeparator: string := ", "
  const EntrySeparator: string := "\n\n"

  /** The text body: the fixed template with the values it interpolates. */
  datatype EmailBody =
    | StatusCheckBody(checkedAt: string)
    | NewModelsBody(detectedAt: string, count: nat, modelList: string)

  /** A SendEmail request: sender, recipients, subject and text body. */
  datatype Email = Email(source: string, toAddresses: seq<string>, subject: string, body: EmailBody)

  function YesNo(b: bool): string
  {
    if b then "Yes" else "No"
  }

  /** The entry of one model in the new-models list. */
  function Entry(m: ModelRecord): (entry: string)
    ensures var header := "- " + m.modelName + " (" + m.modelId + ")" + "\n";
      |header| < |entry| && entry[..|header|] == header
  {
    ("- " + m.modelName + " (" + m.modelId + ")") + "\n"
    + ("  Provider: " + m.providerName) + "\n"
    + ("  Input: " + Join(m.inputModalities, ModalitySeparator)) + "\n"
    + ("  Output: " + Join(m.outputModalities, ModalitySeparator)) + "\n"
    + ("  Streaming: " + YesNo(m.responseStreamingSupported))
  }

  /** An entry ends with `Streaming: Yes` exactly when the model supports response
      streaming, and with `Streaming: No` exactly when it does not. */
  lemma EntryStreaming(m: ModelRecord)
    ensures EndsWith(Entry(m), "Streaming: Yes") <==> m.responseStreamingSupported
    ensures EndsWith(Entry(m), "Streaming: No") <==> !m.responseStreamingSupported
  {
    var head := ("- " + m.modelName + " (" + m.modelId + ")") + "\n"
      + ("  Provider: " + m.providerName) + "\n"
      + ("  Input: " + Join(m.inputModalities, ModalitySeparator)) + "\n"
      + ("  Output: " + Join(m.outputModalities, ModalitySeparator)) + "\n";
    var e := Entry(m);
    assert e == head + ("  Streaming: " + YesNo(m.responseStreamingSupported));
    if m.responseStreamingSupported {
      assert e[|e| - 14..] == "Streaming: Yes";
      assert e[|e| - 1] == 's';
    } else {
      assert e[|e| - 13..] == "Streaming: No";
      assert e[|e| - 1] == 'o';
    }
  }

  /** An entry is five lines joined by newlines: the name and id, the provider, the input
      and output modalities each joined with `", "`, and the streaming flag. */
  lemma EntryLines(m: ModelRecord)
    ensures Entry(m) == Join(["- " + m.modelName + " (" + m.modelId + ")",
                              "  Provider: " + m.providerName,
                              "  Input: " + Join(m.inputModalities, ModalitySeparator),
                              "  Output: " + Join(m.outputModalities, ModalitySeparator),
                              "  Streaming: " + YesNo(m.responseStreamingSupported)], "\n")
  {
    var l0 := "- " + m.modelName + " (" + m.modelId + ")";
    var l1 := "  Provider: " + m.providerName;
    var l2 := "  Input: " + Join(m.inputModalities, ModalitySeparator);
    var l3 := "  Output: " + Join(m.outputModalities, ModalitySeparator);
    var l4 := "  Streaming: " + YesNo(m.responseStreamingSupported);
    JoinFive(l0, l1, l2, l3, l4, "\n");
  }

  /** The entries of the models, in order. */
  function Entries(models: seq<ModelRecord>): seq<string>
  {
    seq(|models|, i requires 0 <= i < |models| => Entry(models[i]))
  }

  /** The model list of the new-models email: the entries joined by a blank line. */
  function ModelList(models: seq<ModelRecord>): (list: string)
    ensures models == [] ==> list == ""
    ensures |models| == 1 ==> list == Entry(models[0])
  {
    Join(Entries(models), EntrySeparator)
  }

  /** One entry per model, separated by one blank line: the list of two non-empty runs
      of models is their lists with a blank line between. */
  lemma ModelListAppend(a: seq<ModelRecord>, b: seq<ModelRecord>)
    requires a != [] && b != []
    ensures ModelList(a + b) == ModelList(a) + EntrySeparator + ModelList(b)
  {
    assert Entries(a + b) == Entries(a) + Entries(b);
    JoinAppend(Entries(a), Entries(b), EntrySeparator);
  }

  /** Subject of the new-models email for `count` models. */
  function NewModelsSubject(count: nat): string
  {
    NewModelsSubjectPrefix + NatToString(count) + NewModelsSubjectSuffix
  }

  /** The count a new-models subject announces, if `subject` has that shape. */
  function SubjectCount(subject: string): Option<nat>
  {
    var p, q := |NewModelsSubjectPrefix|, |NewModelsSubjectSuffix|;
    if p + q <= |subject| && subject[..p] == NewModelsSubjectPrefix && subject[|subject| - q..] == NewModelsSubjectSuffix then
      var digits := subject[p..|subject| - q];
      if digits != [] && AllDigits(digits) then Some(ParseNat(digits)) else None
    else None
  }

  /** The subject announces exactly the count it was made from. */
  lemma SubjectCountRoundTrip(count: nat)
    ensures SubjectCount(NewModelsSubject(count)) == Some(count)
  {
    var digits := NatToString(count);
    var s := NewModelsSubject(count);
    var p, q := |NewModelsSubjectPrefix|, |NewModelsSubjectSuffix|;
    assert s[..p] == NewModelsSubjectPrefix;
    assert s[|s| - q..] == NewModelsSubjectSuffix;
    assert s[p..|s| - q] == digits;
    ParseNatToString(count);
  }

  /** The email the monitor sends: from the configured address to that address alone;
      the status check when asked for, otherwise the new-models email whose subject
      announces their number and whose body lists them. */
  function NotificationEmail(address: string, newModels: seq<ModelRecord>, isStatusCheck: bool, now: string): (e: Email)
    ensures e.source == address && e.toAddresses == [address]
    ensures isStatusCheck ==> e.subject == StatusSubject && e.body == StatusCheckBody(now)
    ensures !isStatusCheck ==> SubjectCount(e.subject) == Some(|newModels|)
    ensures !isStatusCheck ==> e.body == NewModelsBody(now, |newModels|, ModelList(newModels))
  {
    if isStatusCheck then
      Email(address, [address], StatusSubject, StatusCheckBody(now))
    else
      SubjectCountRoundTrip(|newModels|);
      Email(address, [address], NewModelsSubject(|newModels|), NewModelsBody(now, |newModels|, ModelList(newModels)))
  }
}
