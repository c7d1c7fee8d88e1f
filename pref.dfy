/** Preference topics (`preference_topic_t`) and their labels. */
module Pref {
  import opened Types

  datatype Topic = PrefAll | PrefVerbose | PrefAirrate | PrefTxpower | PrefChannel | PrefTbtwRxtx | PrefMsgType

  /** Topic codes run 0..6 in declaration order. */
  function TopicCode(t: Topic): (c: nat)
    ensures c <= 6
  {
    match t
    case PrefAll => 0
    case PrefVerbose => 1
    case PrefAirrate => 2
    case PrefTxpower => 3
    case PrefChannel => 4
    case PrefTbtwRxtx => 5
    case PrefMsgType => 6
  }

  function TopicOfCode(c: int): (t: Option<Topic>)
    ensures t.Some? <==> 0 <= c <= 6
    ensures t.Some? ==> TopicCode(t.value) == c
  {
    if c == 0 then Some(PrefAll)
    else if c == 1 then Some(PrefVerbose)
    else if c == 2 then Some(PrefAirrate)
    else if c == 3 then Some(PrefTxpower)
    else if c == 4 then Some(PrefChannel)
    else if c == 5 then Some(PrefTbtwRxtx)
    else if c == 6 then Some(PrefMsgType)
    else None
  }

  lemma TopicCodeRoundTrip(t: Topic)
    ensures TopicOfCode(TopicCode(t)) == Some(t)
  {
  }

  /** The topic `pref_load`, `pref_apply` and `pref_save` use when given none. */
  const DEFAULT_TOPIC: Topic := PrefAll

  const NOT_IMPLEMENTED_TEXT: string := "Not yet implemented!"

  function Desc(t: Topic): string
  {
    match t
    case PrefAll => "All preferences"
    case PrefVerbose => "Verbose pref."
    case PrefAirrate => "Airrate pref."
    case PrefTxpower => "TxPower pref."
    case PrefTbtwRxtx => "Inter-frame space pref."
    case PrefMsgType => "Msg type pref."
    case _ => NOT_IMPLEMENTED_TEXT
  }

  /** Only the channel topic lacks a label; the other labels are all different. */
  lemma {:induction false} DescLabels(t: Topic, u: Topic)
    ensures Desc(t) == NOT_IMPLEMENTED_TEXT <==> t == PrefChannel
    ensures t != u && t != PrefChannel && u != PrefChannel ==> Desc(t) != Desc(u)
  {
  }
}
