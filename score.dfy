/**
 * The score as the exporter reads it: each part's instrument, its first
 * channel's mixer controllers and program, and the two lookups the
 * analysis runs on a part (voice classification and the volume controller).
 */
module ScoreModel {
  import opened Paths

  /** One `<controller ctrl=".." value=".."/>` of a part's channel. */
  datatype Controller = Controller(ctrl: string, value: int)

  /** One `<Part>`: instrument id, long name, the first channel's controllers and program value. */
  datatype Part = Part(instrumentId: string, longName: string, controllers: seq<Controller>, program: int)

  /** The parsed main score: its `version` attribute and its parts in document order. */
  datatype Score = Score(version: string, parts: seq<Part>)

  /** MIDI controller 7 is the channel volume. */
  const VolumeCtrl: string := "7"
  /** The value a volume controller is created with when a part has none. */
  const DefaultVolume: int := 80

  /** `mb_strtolower` on one character, for ASCII and the Latin-1 capitals. */
  function LowerChar(c: char): char
  {
    if 'A' <= c <= 'Z' then (c as int + 32) as char
    else if 'À' <= c <= 'Þ' && c != '×' then (c as int + 32) as char
    else c
  }

  function Lower(s: string): (r: string)
    ensures |r| == |s|
    ensures forall i :: 0 <= i < |s| ==> r[i] == LowerChar(s[i])
  {
    seq(|s|, i requires 0 <= i < |s| => LowerChar(s[i]))
  }

  /**
   * Whether a part is a sung line. Files whose version starts with "3."
   * carry an instrument id that starts with "voice."; for every other
   * version the lower-cased long name must start with one of the
   * configured prefixes.
   */
  predicate IsVoice(version: string, voices: seq<string>, p: Part)
  {
    if IsPrefix("3.", version) then IsPrefix("voice.", p.instrumentId)
    else exists k :: 0 <= k < |voices| && IsPrefix(voices[k], Lower(p.longName))
  }

  /** isVoice: the version test, then the loop over the prefix list with early return. */
  method ClassifyPart(version: string, voices: seq<string>, p: Part) returns (b: bool)
    ensures b == IsVoice(version, voices, p)
    ensures !IsPrefix("3.", version) && voices == [] ==> !b
  {
    if version[..if |version| < 2 then |version| else 2] == "3." {
      return p.instrumentId[..if |p.instrumentId| < 6 then |p.instrumentId| else 6] == "voice.";
    }
    var name := Lower(p.longName);
    for k := 0 to |voices|
      invariant forall j :: 0 <= j < k ==> !IsPrefix(voices[j], name)
    {
      var v := voices[k];
      if name[..if |name| < |v| then |name| else |v|] == v {
        return true;
      }
    }
    return false;
  }

  predicate HasVolumeCtrl(cs: seq<Controller>)
  {
    exists k :: 0 <= k < |cs| && cs[k].ctrl == VolumeCtrl
  }

  /** `k` is the first controller of `cs` whose ctrl is "7". */
  predicate IsVolumeIdx(cs: seq<Controller>, k: int)
  {
    0 <= k < |cs| && cs[k].ctrl == VolumeCtrl
    && forall j :: 0 <= j < k ==> cs[j].ctrl != VolumeCtrl
  }

  /** The first volume controller is unique, so a second EnsureVolumeCtrl on its own result
      finds the same index (and, by its first ensures, appends nothing). */
  lemma VolumeIdxUnique(cs: seq<Controller>, i: int, j: int)
    requires IsVolumeIdx(cs, i) && IsVolumeIdx(cs, j)
    ensures i == j
  {
  }

  /** getVolumeCtrlIdx: the least index whose ctrl is "7", or -1 when there is none. */
  method GetVolumeCtrlIdx(cs: seq<Controller>) returns (idx: int)
    ensures idx == -1 <==> !HasVolumeCtrl(cs)
    ensures idx != -1 ==> IsVolumeIdx(cs, idx)
  {
    var i := 0;
    while i < |cs|
      invariant 0 <= i <= |cs|
      invariant forall j :: 0 <= j < i ==> cs[j].ctrl != VolumeCtrl
    {
      if cs[i].ctrl == VolumeCtrl {
        return i;
      }
      i := i + 1;
    }
    return -1;
  }

  /**
   * One step of the analysis loop: find the volume controller and append
   * (7, 80) when the part has none; the part is left as it is otherwise.
   */
  method EnsureVolumeCtrl(p: Part) returns (q: Part, idx: nat)
    ensures HasVolumeCtrl(p.controllers) ==> q == p
    ensures !HasVolumeCtrl(p.controllers) ==>
              q == p.(controllers := p.controllers + [Controller(VolumeCtrl, DefaultVolume)])
    ensures IsVolumeIdx(q.controllers, idx)
    ensures HasVolumeCtrl(q.controllers)
  {
    var i := GetVolumeCtrlIdx(p.controllers);
    if i == -1 {
      q := p.(controllers := p.controllers + [Controller(VolumeCtrl, DefaultVolume)]);
      idx := |q.controllers| - 1;
    } else {
      q, idx := p, i;
    }
  }
}
