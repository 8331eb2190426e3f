/**
 * The bot's voice: the ordered search for the voice to speak with, and
 * the module-level cell that remembers the utterance being spoken.
 */
module BotVoice {

  import opened Wrappers

  datatype Voice = Voice(lang: string, name: string, isDefault: bool)

  /** `lang.startsWith('en')`: case-sensitive. */
  predicate IsEnglish(v: Voice) {
    |v.lang| >= 2 && v.lang[0] == 'e' && v.lang[1] == 'n'
  }

  function LowerChar(c: char): char {
    if 'A' <= c <= 'Z' then (c as int + 32) as char else c
  }

  /** `toLowerCase`, on the ASCII letters. */
  function Lower(s: string): (r: string)
    ensures |r| == |s|
    ensures forall k :: 0 <= k < |s| ==> r[k] == LowerChar(s[k])
  {
    if |s| == 0 then [] else [LowerChar(s[0])] + Lower(s[1..])
  }

  /** `s.includes(sub)`. */
  predicate Contains(s: string, sub: string) {
    exists i | 0 <= i <= |s| - |sub| :: OccursAt(s, sub, i)
  }

  predicate OccursAt(s: string, sub: string, i: int) {
    0 <= i && i + |sub| <= |s| && s[i..i + |sub|] == sub
  }

  /** An English voice whose name, in any letter case, mentions one of the four preferred voices. */
  predicate IsPreferred(v: Voice) {
    var n := Lower(v.name);
    IsEnglish(v) && (Contains(n, "female") || Contains(n, "zira") || Contains(n, "samantha") || Contains(n, "karen"))
  }

  predicate IsDefaultVoice(v: Voice) {
    v.isDefault
  }

  /** `voices.filter(p)`. */
  function Filter(vs: seq<Voice>, p: Voice -> bool): (r: seq<Voice>)
    ensures |r| <= |vs|
    ensures forall k :: 0 <= k < |r| ==> p(r[k]) && r[k] in vs
  {
    if |vs| == 0 then [] else (if p(vs[0]) then [vs[0]] else []) + Filter(vs[1..], p)
  }

  /** `filter(p)[0]` is the first voice in list order that `p` accepts, and the filter is empty when `p` accepts none. */
  lemma {:induction false} FilterHead(vs: seq<Voice>, p: Voice -> bool)
    ensures |Filter(vs, p)| == 0 <==> forall k :: 0 <= k < |vs| ==> !p(vs[k])
    ensures forall i :: 0 <= i < |vs| && p(vs[i]) && (forall k :: 0 <= k < i ==> !p(vs[k])) ==> Filter(vs, p)[0] == vs[i]
  {
    if |vs| > 0 {
      FilterHead(vs[1..], p);
      if !p(vs[0]) {
        assert Filter(vs, p) == Filter(vs[1..], p);
        forall i | 0 < i < |vs| && p(vs[i]) && (forall k :: 0 <= k < i ==> !p(vs[k]))
          ensures Filter(vs, p)[0] == vs[i]
        {
          assert vs[1..][i - 1] == vs[i];
          assert forall k :: 0 <= k < i - 1 ==> vs[1..][k] == vs[k + 1];
        }
        forall k | 0 <= k < |vs[1..]| ensures vs[1..][k] == vs[k + 1] {}
      }
    }
  }

  /** `getBestVoice`: a preferred voice, else an English voice, else the default voice, else the first, else none. */
  function GetBestVoice(supported: bool, voices: seq<Voice>): (r: Option<Voice>)
    ensures r.Some? ==> supported && r.value in voices
  {
    if !supported then None
    else
      var preferred := Filter(voices, IsPreferred);
      if |preferred| > 0 then Some(preferred[0])
      else
        var english := Filter(voices, IsEnglish);
        if |english| > 0 then Some(english[0])
        else
          var defaults := Filter(voices, IsDefaultVoice);
          if |defaults| > 0 then Some(defaults[0])
          else if |voices| > 0 then Some(voices[0])
          else None
  }

  /** The first index at which `p` holds. */
  predicate FirstAt(vs: seq<Voice>, p: Voice -> bool, i: int) {
    0 <= i < |vs| && p(vs[i]) && forall k :: 0 <= k < i ==> !p(vs[k])
  }

  /** No voice comes back exactly when synthesis is missing or the list is empty. */
  lemma BestVoiceIsListed(supported: bool, voices: seq<Voice>)
    ensures GetBestVoice(supported, voices).None? <==> !supported || |voices| == 0
  {
    FilterHead(voices, IsDefaultVoice);
  }

  /** The first preferred voice wins. */
  lemma BestVoicePreferred(voices: seq<Voice>, i: int)
    requires FirstAt(voices, IsPreferred, i)
    ensures GetBestVoice(true, voices) == Some(voices[i])
  {
    FilterHead(voices, IsPreferred);
  }

  /** Without a preferred voice, the first English voice wins. */
  lemma BestVoiceEnglish(voices: seq<Voice>, i: int)
    requires forall k :: 0 <= k < |voices| ==> !IsPreferred(voices[k])
    requires FirstAt(voices, IsEnglish, i)
    ensures GetBestVoice(true, voices) == Some(voices[i])
  {
    FilterHead(voices, IsPreferred);
    FilterHead(voices, IsEnglish);
  }

  /** Without any English voice, the first default voice wins, and failing that the first voice. */
  lemma BestVoiceFallback(voices: seq<Voice>)
    requires |voices| > 0 && forall k :: 0 <= k < |voices| ==> !IsEnglish(voices[k])
    ensures forall i :: FirstAt(voices, IsDefaultVoice, i) ==> GetBestVoice(true, voices) == Some(voices[i])
    ensures (forall k :: 0 <= k < |voices| ==> !voices[k].isDefault) ==> GetBestVoice(true, voices) == Some(voices[0])
  {
    FilterHead(voices, IsPreferred);
    FilterHead(voices, IsEnglish);
    FilterHead(voices, IsDefaultVoice);
  }

  /** The language test minds letter case and the name test does not. */
  lemma CaseExamples()
    ensures IsPreferred(Voice("en-US", "ZIRA", false))
    ensures !IsEnglish(Voice("EN-US", "Zira", false))
  {
    var n := Lower("ZIRA");
    assert n[0] == 'z' && n[1] == 'i' && n[2] == 'r' && n[3] == 'a';
    assert n == "zira";
    assert OccursAt(n, "zira", 0);
  }

  datatype Utterance = Utterance(id: nat, text: string, voice: Option<Voice>)

  class Speech {
    /** Whether the browser offers speech synthesis; fixed when the module loads. */
    const supported: bool
    /** What the synthesiser lists as its voices. */
    var voices: seq<Voice>
    /** The utterance cell: the id of the utterance last handed to the synthesiser, until it is cleared. */
    var current: Option<nat>
    /** Every utterance handed to the synthesiser, in order; ids are their positions. */
    var spoken: seq<Utterance>
    var cancels: nat
    /** Texts waiting for the voice list to arrive. */
    var deferred: seq<string>

    ghost predicate Valid()
      reads this
    {
      (forall k :: 0 <= k < |spoken| ==> spoken[k].id == k)
      && (current.Some? ==> current.value < |spoken|)
      && (!supported ==> current.None? && spoken == [] && deferred == [] && cancels == 0)
    }

    constructor (supported: bool, voices: seq<Voice>)
      ensures Valid()
      ensures this.supported == supported && this.voices == voices
      ensures current == None && spoken == [] && cancels == 0 && deferred == []
    {
      this.supported := supported;
      this.voices := voices;
      current := None;
      spoken := [];
      cancels := 0;
      deferred := [];
    }

    /** The synthesiser's voice list changes. */
    method SetVoices(vs: seq<Voice>)
      requires Valid()
      modifies this
      ensures Valid() && voices == vs
      ensures current == old(current) && spoken == old(spoken) && cancels == old(cancels) && deferred == old(deferred)
    {
      voices := vs;
    }

    /** `createUtterance`: an utterance in the best voice is spoken and becomes the current one. */
    method CreateUtterance(text: string) returns (id: nat)
      requires Valid() && supported
      modifies this
      ensures Valid()
      ensures id == |old(spoken)| && current == Some(id)
      ensures spoken == old(spoken) + [Utterance(id, text, GetBestVoice(supported, voices))]
      ensures voices == old(voices) && cancels == old(cancels) && deferred == old(deferred)
    {
      id := |spoken|;
      spoken := spoken + [Utterance(id, text, GetBestVoice(supported, voices))];
      current := Some(id);
    }

    /**
     * `speakMessage`: without synthesis only the error callback runs.  Otherwise
     * any current utterance is cancelled, and the text is spoken at once, or
     * waits for the voice list when it is still empty; the result is the
     * utterance cell as it then stands.
     */
    method Speak(text: string) returns (r: Option<nat>, errorCalled: bool)
      requires Valid()
      modifies this
      ensures Valid()
      ensures r == current && errorCalled == !supported
      ensures !supported ==> r.None? && current == old(current) && spoken == old(spoken) && cancels == old(cancels)
      ensures supported ==> cancels == old(cancels) + (if old(current).Some? then 1 else 0)
      ensures supported && |voices| > 0 ==>
        (r == Some(|old(spoken)|) && deferred == old(deferred)
         && spoken == old(spoken) + [Utterance(|old(spoken)|, text, GetBestVoice(true, voices))])
      ensures supported && |voices| == 0 ==>
        (r == old(current) && spoken == old(spoken) && deferred == old(deferred) + [text])
      ensures voices == old(voices)
    {
      if !supported {
        errorCalled := true;
        r := None;
        return;
      }
      errorCalled := false;
      if current.Some? {
        cancels := cancels + 1;
      }
      if |voices| == 0 {
        deferred := deferred + [text];
      } else {
        var _ := CreateUtterance(text);
      }
      r := current;
    }

    /** A deferred request runs once the voice list has arrived. */
    method FireDeferred() returns (id: nat)
      requires Valid() && |deferred| > 0
      modifies this
      ensures Valid()
      ensures id == |old(spoken)| && current == Some(id) && deferred == old(deferred)[1..]
      ensures spoken == old(spoken) + [Utterance(id, old(deferred)[0], GetBestVoice(supported, voices))]
      ensures voices == old(voices) && cancels == old(cancels)
    {
      var text := deferred[0];
      deferred := deferred[1..];
      id := CreateUtterance(text);
    }

    /**
     * The synthesiser reports that utterance `id` ended or failed: the cell is
     * cleared before the callback runs, whichever utterance it held.
     */
    method UtteranceFinished(id: nat)
      requires Valid() && id < |spoken|
      modifies this
      ensures Valid() && current == None
      ensures voices == old(voices) && spoken == old(spoken) && cancels == old(cancels) && deferred == old(deferred)
    {
      current := None;
    }

    /** `stopSpeech`: cancels and clears only when an utterance is current. */
    method StopSpeech()
      requires Valid()
      modifies this
      ensures Valid() && current == None
      ensures cancels == old(cancels) + (if old(current).Some? then 1 else 0)
      ensures voices == old(voices) && spoken == old(spoken) && deferred == old(deferred)
    {
      if supported && current.Some? {
        cancels := cancels + 1;
        current := None;
      }
    }
  }
}
