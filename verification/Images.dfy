// Reading a version off a container image, as the controller does
// (internal/controller/validation.go) and as the job scripts do with `cut -d: -f2`.
module Images {
  import opened Strings
  import opened Wrappers

  /** detectDeployedVersion, from the image on: the text after the last colon, with a leading v. */
  function Detect(image: string): (version: Option<string>)
    ensures version.Some? ==> "v" <= version.value && ':' !in version.value
    ensures version.None? <==> ':' !in image
  {
    var parts := Split(image, ':');
    NoColonIsOnePart(image);
    if |parts| < 2 then None
    else
      var version := parts[|parts| - 1];
      Some(if "v" <= version then version else "v" + version)
  }

  /** cut -d: -f2, which prints a line without the delimiter whole. */
  function CutTag(image: string): (r: string) {
    var parts := Split(image, ':');
    if |parts| == 1 then parts[0] else parts[1]
  }

  lemma {:induction false} NoColonIsOnePart(s: string)
    ensures |Split(s, ':')| == 1 <==> ':' !in s
  {
    if s != "" { NoColonIsOnePart(s[1..]); }
  }

  /** Printing an image and detecting its version is a round trip exactly for tags with the leading v. */
  lemma DetectUndoesPrint(repo: string, tag: string)
    requires ':' !in tag
    ensures Detect(repo + ":" + tag) == Some(tag) <==> "v" <= tag
  {
    SplitOfConcat(repo, tag, ':');
    SplitOfAtom(tag, ':');
  }

  /** Conversely, an image with a detected version is some repository with that tag, but for the leading v. */
  lemma PrintUndoesDetect(image: string) returns (repo: string, tag: string)
    requires Detect(image).Some?
    ensures image == repo + ":" + tag
    ensures Detect(image).value == if "v" <= tag then tag else "v" + tag
  {
    NoColonIsOnePart(image);
    JoinUndoesSplit(image, ':');
    var parts := Split(image, ':');
    var front := parts[..|parts| - 1];
    repo, tag := Join(front, ':'), parts[|parts| - 1];
    JoinOfAppend(front, tag, ':');
    assert front + [tag] == parts;
  }

  /** The scripts cut the tag off the images they write exactly when it holds no colon. */
  lemma CutUndoesPrint(repo: string, tag: string)
    requires ':' !in repo
    ensures CutTag(repo + ":" + tag) == tag <==> ':' !in tag
  {
    SplitOfConcat(repo, tag, ':');
    SplitOfAtom(repo, ':');
    NoColonIsOnePart(tag);
    if ':' !in tag { SplitOfAtom(tag, ':'); }
  }

  /** Controller and scripts read the same version off a one-colon image with the leading v. */
  lemma CutAgreesWithDetect(repo: string, tag: string)
    requires ':' !in repo && ':' !in tag && "v" <= tag
    ensures Detect(repo + ":" + tag) == Some(CutTag(repo + ":" + tag))
  {
    DetectUndoesPrint(repo, tag);
    CutUndoesPrint(repo, tag);
  }
}
