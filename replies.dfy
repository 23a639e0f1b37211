/**
 * How the content agents of app/agents/ read the bullet lines of a plain-text
 * model reply: `for line in response.split("\n")`, normalise the line, and
 * keep it when it opens with '-', '•' or a digit. The asset-prep agent
 * normalises with `clean_text`, the research agent with `str.strip`; the
 * filtering is the same and is defined here once, over the normalised lines.
 */
module Replies {
  import opened Strings

  /** `line and (line.startswith("-") or line.startswith("•") or line[0].isdigit())`. */
  predicate Bulleted(line: string)
  {
    |line| > 0 && (line[0] == '-' || line[0] == '\U{2022}' || IsDigit(line[0]))
  }

  /** The bullet lines among normalised lines, in order. */
  function Bullets(lines: seq<string>): (r: seq<string>)
    ensures |r| <= |lines|
    ensures forall k | 0 <= k < |r| :: Bulleted(r[k]) && r[k] in lines
    decreases |lines|
  {
    if lines == [] then []
    else
      var init := lines[..|lines| - 1];
      var line := lines[|lines| - 1];
      assert forall x <- init :: x in lines;
      Bullets(init) + (if Bulleted(line) then [line] else [])
  }

  /** No line is kept exactly when no line is a bullet. */
  lemma {:induction false} NoBullets(lines: seq<string>)
    ensures Bullets(lines) == [] <==> forall j | 0 <= j < |lines| :: !Bulleted(lines[j])
    decreases |lines|
  {
    if lines != [] {
      var init := lines[..|lines| - 1];
      NoBullets(init);
      assert forall j | 0 <= j < |init| :: init[j] == lines[j];
    }
  }

  /** Filtering is line by line: the bullets of two stretches of lines are those of each, in order. */
  lemma {:induction false} BulletsAppend(a: seq<string>, b: seq<string>)
    ensures Bullets(a + b) == Bullets(a) + Bullets(b)
    decreases |b|
  {
    if b != [] {
      var init := b[..|b| - 1];
      assert (a + b)[..|a + b| - 1] == a + init;
      assert (a + b)[|a + b| - 1] == b[|b| - 1];
      BulletsAppend(a, init);
    } else {
      assert a + b == a;
    }
  }

  /** One more line read: it is kept after the bullets before it exactly when it is a bullet. */
  lemma BulletsStep(lines: seq<string>, i: nat)
    requires i < |lines|
    ensures Bulleted(lines[i]) ==> Bullets(lines[..i + 1]) == Bullets(lines[..i]) + [lines[i]]
    ensures !Bulleted(lines[i]) ==> Bullets(lines[..i + 1]) == Bullets(lines[..i])
  {
    PrefixStep(lines, i);
    assert Bullets(lines[..i]) + [] == Bullets(lines[..i]);
  }

  /** All the lines read: the prefix is the whole. */
  lemma BulletsWhole(lines: seq<string>)
    ensures Bullets(lines[..|lines|]) == Bullets(lines)
  {
    assert lines[..|lines|] == lines;
  }

  /** A single line is kept exactly when it is a bullet. */
  lemma BulletLine(line: string)
    ensures Bullets([line]) == if Bulleted(line) then [line] else []
  {
    assert [line][..0] == [];
  }
}
