/**
 * The device-wide accessibility list, edited on the panel by a shell loop over
 * string variables and predicted off the panel by an expression over a list.
 */
module Accessibility {
  import opened Wrappers

  const MAX_SERVICES: nat := 64
  const MAX_LENGTH: nat := 4096

  /** The services one build of the app knows: its own, its other spellings, those it replaces. */
  datatype Build = Build(component: string, known: seq<string>, obsolete: seq<string>)

  predicate Letter(c: char) { 'a' <= c <= 'z' || 'A' <= c <= 'Z' }

  predicate NameChar(c: char) { Letter(c) || '0' <= c <= '9' || c == '_' || c == '.' }

  predicate SlashAt(s: string, i: nat) {
    && 0 < i < |s| - 1 && s[i] == '/'
    && Letter(s[0]) && (forall k :: 0 < k < i ==> NameChar(s[k]))
    && (Letter(s[i + 1]) || s[i + 1] == '.')
    && (forall k :: i + 1 < k < |s| ==> NameChar(s[k]) || s[k] == '$')
  }

  /** A package, a slash and a class, as the service pattern has it. */
  predicate IsComponent(s: string) {
    exists i :: 0 <= i < |s| && SlashAt(s, i)
  }

  predicate Colonless(s: string) { ':' !in s }

  /** What the app's own tables promise about themselves. */
  predicate WellFormed(b: Build) {
    && b.component in b.known
    && (forall k :: k in b.known ==> IsComponent(k) && k !in b.obsolete)
    && (forall k :: k in b.obsolete ==> IsComponent(k))
  }

  // ------------------------------------------------------------------ lists as text

  function FirstColon(s: string): (i: nat)
    ensures i <= |s| && Colonless(s[..i]) && (i < |s| ==> s[i] == ':')
  {
    if s == [] || s[0] == ':' then 0
    else
      assert s[..1 + FirstColon(s[1..])] == [s[0]] + s[1..][..FirstColon(s[1..])];
      1 + FirstColon(s[1..])
  }

  function Split(s: string): seq<string>
    decreases |s|
  {
    var i := FirstColon(s);
    if i == |s| then [s] else [s[..i]] + Split(s[i + 1..])
  }

  function Join(l: seq<string>): string
    decreases |l|
  {
    if l == [] then "" else if |l| == 1 then l[0] else l[0] + ":" + Join(l[1..])
  }

  function Kept(l: seq<string>, obsolete: seq<string>): seq<string>
    decreases |l|
  {
    if l == [] then []
    else
      var rest := Kept(l[..|l| - 1], obsolete);
      if l[|l| - 1] in obsolete then rest else rest + [l[|l| - 1]]
  }

  predicate Distinct(l: seq<string>) {
    forall i, j :: 0 <= i < j < |l| ==> l[i] != l[j]
  }

  predicate AllComponents(l: seq<string>) {
    forall i :: 0 <= i < |l| ==> IsComponent(l[i])
  }

  // ------------------------------------------------------------------ the prediction

  function Services(before: string): seq<string> {
    if before == "" || before == "null" then [] else Split(before)
  }

  function WithComponent(l: seq<string>, b: Build): seq<string> {
    if exists i :: 0 <= i < |l| && l[i] in b.known then l else l + [b.component]
  }

  /** The list after a grant, or None when the list found cannot be edited. */
  function ExpectedServices(before: string, b: Build): Option<string> {
    if Editable(before) then Some(Join(WithComponent(Kept(Services(before), b.obsolete), b))) else None
  }

  predicate Editable(before: string) {
    var services := Services(before);
    |before| <= MAX_LENGTH && |services| <= MAX_SERVICES && Distinct(services) && AllComponents(services)
  }

  // ------------------------------------------------------------- the shell's own terms

  predicate PartAt(text: string, part: string, i: nat) {
    i + |part| <= |text| && text[i..i + |part|] == part
  }

  predicate Contains(text: string, part: string) {
    exists i :: 0 <= i <= |text| && PartAt(text, part, i)
  }

  /** `${list:+$list:}$item` */
  function Appended(list: string, item: string): string {
    if list == "" then item else list + ":" + item
  }

  /** The services already seen, each between colons. */
  function Seen(l: seq<string>): string
    decreases |l|
  {
    if l == [] then ":" else ":" + l[0] + Seen(l[1..])
  }

  lemma ComponentFacts(s: string)
    requires IsComponent(s)
    ensures Colonless(s) && s != "" && s != "null"
  {
    var i :| 0 <= i < |s| && SlashAt(s, i);
    forall k | 0 <= k < |s| ensures s[k] != ':' {
      assert k < i || k == i || k == i + 1 || k > i + 1;
    }
    assert s != "null" by { assert s[i] == '/'; }
  }

  lemma {:induction false} SeenSnoc(l: seq<string>, s: string)
    ensures Seen(l + [s]) == Seen(l) + s + ":"
    decreases |l|
  {
    if l == [] {
      assert ([] + [s])[1..] == [];
      assert Seen([s]) == ":" + s + ":";
      assert Seen([]) + s + ":" == ":" + s + ":";
    } else {
      assert (l + [s])[1..] == l[1..] + [s];
      SeenSnoc(l[1..], s);
    }
  }

  /** Looking for `:s:` in the text finds exactly the services that were seen. */
  lemma {:induction false} SeenContains(l: seq<string>, s: string)
    requires s != "" && Colonless(s) && forall i :: 0 <= i < |l| ==> Colonless(l[i])
    ensures Contains(Seen(l), ":" + s + ":") <==> s in l
    decreases |l|
  {
    var part := ":" + s + ":";
    var text := Seen(l);
    if l == [] {
    } else {
      var d := l[0];
      var rest := Seen(l[1..]);
      SeenContains(l[1..], s);
      SeenStarts(l[1..]);
      assert text == ":" + d + rest;
      if i :| 0 <= i <= |text| && PartAt(text, part, i) {
        FoundAt(d, rest, s, i);
        if i > 0 {
          var j := i - 1 - |d|;
          assert rest[j..j + |part|] == text[i..i + |part|];
          assert PartAt(rest, part, j);
        }
      }
      if s == d {
        StartsWith(d, rest);
        assert PartAt(text, part, 0);
      } else if s in l[1..] {
        var i :| 0 <= i <= |rest| && PartAt(rest, part, i);
        assert text[i + 1 + |d|..i + 1 + |d| + |part|] == rest[i..i + |part|];
        assert PartAt(text, part, i + 1 + |d|);
      }
    }
  }

  lemma StartsWith(d: string, rest: string)
    requires rest != "" && rest[0] == ':'
    ensures (":" + d + rest)[0..|d| + 2] == ":" + d + ":"
  {
    assert rest == ":" + rest[1..];
  }

  lemma SeenStarts(l: seq<string>)
    ensures Seen(l) != "" && Seen(l)[0] == ':'
  {
  }

  /** A match of `:s:` starts at a colon, and what follows runs to the next one. */
  lemma FoundAt(d: string, rest: string, s: string, i: nat)
    requires Colonless(d) && Colonless(s) && rest != "" && rest[0] == ':'
    requires var text := ":" + d + rest; var part := ":" + s + ":";
             PartAt(text, part, i)
    ensures if i == 0 then s == d else i >= 1 + |d|
  {
    var text := ":" + d + rest;
    var part := ":" + s + ":";
    assert forall k :: 0 <= k < |part| ==> text[i..i + |part|][k] == text[i + k] == part[k];
    assert forall k :: 0 <= k < |d| ==> text[1 + k] == d[k] != ':';
    assert text[1 + |d|] == ':' && part[1 + |s|] == ':';
    if i == 0 {
      assert text[1..1 + |s|] == part[1..1 + |s|] == s;
    } else {
      assert text[i] == ':';
    }
  }

  lemma {:induction false} JoinSnoc(l: seq<string>, s: string)
    ensures Join(l + [s]) == if l == [] then s else Join(l) + ":" + s
    decreases |l|
  {
    if l == [] {
      assert [] + [s] == [s];
    } else {
      assert (l + [s])[1..] == l[1..] + [s];
      JoinSnoc(l[1..], s);
      if |l| == 1 { assert l[1..] == []; }
    }
  }

  lemma {:induction false} JoinSeen(l: seq<string>)
    requires l != []
    ensures ":" + Join(l) + ":" == Seen(l)
    decreases |l|
  {
    if |l| == 1 {
      assert l[1..] == [];
      assert Seen(l) == ":" + l[0] + ":";
    } else {
      JoinSeen(l[1..]);
    }
  }

  lemma JoinEmpty(l: seq<string>)
    requires forall i :: 0 <= i < |l| ==> l[i] != ""
    ensures Join(l) == "" <==> l == []
  {
  }

  lemma KeptFacts(l: seq<string>, obsolete: seq<string>)
    ensures forall s :: s in Kept(l, obsolete) <==> s in l && s !in obsolete
    ensures |Kept(l, obsolete)| <= |l|
    decreases |l|
  {
    if l != [] {
      KeptFacts(l[..|l| - 1], obsolete);
      assert l == l[..|l| - 1] + [l[|l| - 1]];
    }
  }

  lemma KeptSnoc(l: seq<string>, s: string, obsolete: seq<string>)
    ensures Kept(l + [s], obsolete) == if s in obsolete then Kept(l, obsolete) else Kept(l, obsolete) + [s]
  {
    assert (l + [s])[..|l|] == l;
  }

  /** What the loop has read so far, and what its variables hold. */
  ghost predicate Reading(before: string, b: Build, done: seq<string>, rest: string,
                          seen: string, after: string, count: nat)
  {
    && Split(before) == done + Split(rest)
    && AllComponents(done) && Distinct(done) && |done| <= MAX_SERVICES
    && count == |done| && seen == Seen(done) && after == Join(Kept(done, b.obsolete))
  }

  lemma ReadOne(before: string, b: Build, done: seq<string>, rest: string, seen: string, after: string, count: nat)
    requires Reading(before, b, done, rest, seen, after, count)
    ensures var service := rest[..FirstColon(rest)];
            var last := FirstColon(rest) == |rest|;
            && |done| < |Split(before)| && Split(before)[|done|] == service
            && Split(before)[..|done|] == done
            && Split(before) == done + [service] + (if last then [] else Split(rest[FirstColon(rest) + 1..]))
  {
    hide Seen, AllComponents, Distinct, Kept, Join, FirstColon;
    var i := FirstColon(rest);
    assert i == |rest| ==> rest[..i] == rest;
    assert Split(rest)[0] == rest[..i];
  }

  /** A further service is new to the text exactly when it is new to the list. */
  lemma SeenOne(b: Build, done: seq<string>, service: string)
    requires AllComponents(done) && Distinct(done) && IsComponent(service)
    ensures Contains(Seen(done), ":" + service + ":") <==> service in done
    ensures service !in done ==>
              && AllComponents(done + [service]) && Distinct(done + [service])
              && Seen(done + [service]) == Seen(done) + service + ":"
              && Join(Kept(done + [service], b.obsolete))
                 == if service in b.obsolete then Join(Kept(done, b.obsolete))
                    else Appended(Join(Kept(done, b.obsolete)), service)
  {
    hide IsComponent, Contains, Seen, Kept, Join;
    forall i | 0 <= i < |done| ensures Colonless(done[i]) && done[i] != "" {
      ComponentFacts(done[i]);
    }
    ComponentFacts(service);
    SeenContains(done, service);
    SeenSnoc(done, service);
    KeptSnoc(done, service, b.obsolete);
    KeptFacts(done, b.obsolete);
    forall k | 0 <= k < |Kept(done, b.obsolete)| ensures Kept(done, b.obsolete)[k] != "" {
      assert Kept(done, b.obsolete)[k] in Kept(done, b.obsolete);
    }
    JoinSnoc(Kept(done, b.obsolete), service);
    JoinEmpty(Kept(done, b.obsolete));
  }

  /** An item that may not be there makes the whole list unusable. */
  lemma Unusable(before: string, i: nat)
    requires before != "" && before != "null" && i < |Split(before)|
    requires !IsComponent(Split(before)[i]) || Split(before)[i] in Split(before)[..i] || i >= MAX_SERVICES
    ensures !Editable(before)
  {
    hide Split, IsComponent;
    var l := Split(before);
    if l[i] in l[..i] {
      var j :| 0 <= j < i && l[..i][j] == l[i];
      assert l[j] == l[i];
    }
  }

  /** Reading the list item by item, dropping what is obsolete; invalid at the first bad item. */
  method ReadList(before: string, b: Build) returns (valid: bool, after: string)
    requires before != "" && before != "null"
    ensures valid <==> Editable(before)
    ensures valid ==> after == Join(Kept(Split(before), b.obsolete))
  {
    hide Seen, Split, Kept, Join, IsComponent, AllComponents, Distinct, Contains, Editable, FirstColon;
    after, valid := "", |before| <= MAX_LENGTH;
    var rest, seen, count := before, ":", 0;
    ghost var done: seq<string> := [];
    FirstRead(before, b);
    while true
      invariant valid == (|before| <= MAX_LENGTH)
      invariant Reading(before, b, done, rest, seen, after, count)
      decreases |rest|
    {
      ReadOne(before, b, done, rest, seen, after, count);
      var colon := FirstColon(rest);
      var service := rest[..colon];
      count := count + 1;
      if count > MAX_SERVICES || !IsComponent(service) {
        Unusable(before, |done|);
        return false, after;
      }
      SeenOne(b, done, service);
      if Contains(seen, ":" + service + ":") {
        Unusable(before, |done|);
        return false, after;
      }
      if service !in b.obsolete {
        after := Appended(after, service);
      }
      seen := seen + service + ":";
      done := done + [service];
      if colon == |rest| {
        assert Split(before) == done;
        AllRead(before);
        return valid, after;
      }
      rest := rest[colon + 1..];
    }
  }

  lemma FirstRead(before: string, b: Build)
    ensures Reading(before, b, [], before, ":", "", 0)
  {
    assert Split(before) == [] + Split(before);
  }

  lemma AllRead(before: string)
    requires before != "" && before != "null"
    requires AllComponents(Split(before)) && Distinct(Split(before)) && |Split(before)| <= MAX_SERVICES
    ensures Editable(before) <==> |before| <= MAX_LENGTH
  {
  }

  /**
   * The program the panel's shell runs over the list, in its own variables:
   * text cut at the first colon, text that has been seen, and text to write
   * back. It agrees with the prediction on every one-line list.
   */
  method GrantedList(before: string, b: Build) returns (valid: bool, after: string)
    requires WellFormed(b)
    ensures valid <==> ExpectedServices(before, b).Some?
    ensures valid ==> after == ExpectedServices(before, b).value
  {
    hide Split, Kept, Join, IsComponent, Contains, WellFormed;
    after, valid := "", true;
    if before == "" || before == "null" {
      assert Kept([], b.obsolete) == [] && Join([]) == "" by { Nothing(b); }
    } else {
      valid, after := ReadList(before, b);
      if !valid {
        return;
      }
    }
    var list := Services(before);
    KeptComponents(list, b);
    WrittenBack(Kept(list, b.obsolete), b);
    if !(exists i :: 0 <= i < |b.known| && Contains(":" + after + ":", ":" + b.known[i] + ":")) {
      after := Appended(after, b.component);
    }
  }

  lemma Nothing(b: Build)
    ensures Kept([], b.obsolete) == [] && Join([]) == ""
  {
  }

  lemma KeptComponents(l: seq<string>, b: Build)
    requires AllComponents(l)
    ensures AllComponents(Kept(l, b.obsolete))
  {
    KeptFacts(l, b.obsolete);
  }

  /** Looking for a known spelling in the text, and appending to it, are the list operations. */
  lemma WrittenBack(l: seq<string>, b: Build)
    requires AllComponents(l) && WellFormed(b)
    ensures (exists i :: 0 <= i < |b.known| && Contains(":" + Join(l) + ":", ":" + b.known[i] + ":"))
            <==> exists i :: 0 <= i < |l| && l[i] in b.known
    ensures Join(l + [b.component]) == Appended(Join(l), b.component)
  {
    hide IsComponent, Seen, Join, Contains;
    forall i | 0 <= i < |l| ensures Colonless(l[i]) && l[i] != "" {
      ComponentFacts(l[i]);
    }
    JoinSnoc(l, b.component);
    JoinEmpty(l);
    forall k | k in b.known
      ensures Contains(":" + Join(l) + ":", ":" + k + ":") <==> k in l
    {
      ComponentFacts(k);
      if l == [] {
        NothingThere(k);
      } else {
        JoinSeen(l);
        SeenContains(l, k);
      }
    }
    if i :| 0 <= i < |l| && l[i] in b.known {
      var j :| 0 <= j < |b.known| && b.known[j] == l[i];
      assert Contains(":" + Join(l) + ":", ":" + b.known[j] + ":");
    }
  }

  lemma NothingThere(k: string)
    requires k != "" && Colonless(k)
    ensures !Contains(":" + Join([]) + ":", ":" + k + ":")
  {
  }

  // ------------------------------------------------------------------ what a grant keeps

  lemma {:induction false} SplitJoin(l: seq<string>)
    requires l != [] && forall i :: 0 <= i < |l| ==> Colonless(l[i])
    ensures Split(Join(l)) == l
    decreases |l|
  {
    hide Split, Colonless;
    if |l| == 1 {
      SplitOne(l[0]);
      assert l == [l[0]];
    } else {
      SplitJoin(l[1..]);
      SplitStep(l[0], Join(l[1..]));
      assert Join(l) == l[0] + (":" + Join(l[1..]));
      assert l == [l[0]] + l[1..];
    }
  }

  lemma SplitOne(s: string)
    requires Colonless(s)
    ensures Split(s) == [s]
  {
    ColonFirst(s, "");
    assert s + "" == s;
  }

  lemma SplitStep(s: string, rest: string)
    requires Colonless(s)
    ensures Split(s + (":" + rest)) == [s] + Split(rest)
  {
    hide FirstColon;
    var text := s + (":" + rest);
    ColonFirst(s, ":" + rest);
    assert text[|s| + 1..] == rest;
  }

  lemma {:induction false} ColonFirst(s: string, rest: string)
    requires Colonless(s) && (rest == "" || rest[0] == ':')
    ensures FirstColon(s + rest) == |s|
    ensures (s + rest)[..|s|] == s
    decreases |s|
  {
    if s == "" {
      assert s + rest == rest;
    } else {
      assert (s + rest)[1..] == s[1..] + rest;
      ColonFirst(s[1..], rest);
    }
  }

  /** The services a grant leaves enabled. */
  function After(before: string, b: Build): seq<string> {
    WithComponent(Kept(Services(before), b.obsolete), b)
  }

  lemma {:induction false} KeptDistinct(l: seq<string>, obsolete: seq<string>)
    requires Distinct(l)
    ensures Distinct(Kept(l, obsolete))
    decreases |l|
  {
    if l != [] {
      var front := l[..|l| - 1];
      KeptDistinct(front, obsolete);
      KeptFacts(front, obsolete);
      forall i | 0 <= i < |Kept(front, obsolete)|
        ensures Kept(front, obsolete)[i] != l[|l| - 1]
      {
        assert Kept(front, obsolete)[i] in front;
      }
    }
  }

  lemma AfterFacts(before: string, b: Build)
    requires WellFormed(b) && Editable(before)
    ensures var l := After(before, b);
            l != [] && AllComponents(l) && Distinct(l)
            && (exists i :: 0 <= i < |l| && l[i] in b.known)
            && (forall s :: s in l ==> s !in b.obsolete)
  {
    hide IsComponent, Split;
    var kept := Kept(Services(before), b.obsolete);
    KeptFacts(Services(before), b.obsolete);
    KeptDistinct(Services(before), b.obsolete);
    KeptComponents(Services(before), b);
    var l := After(before, b);
    if l != kept {
      assert l[|kept|] == b.component;
      forall i | 0 <= i < |kept| ensures kept[i] != b.component {
        assert kept[i] !in b.known;
      }
    }
  }

  /**
   * A grant takes nothing away but what the app itself replaced: every other
   * service stays, in its order, once; nothing is added but the app's own
   * service, and only where no spelling of it was there.
   */
  lemma GrantKeepsTheRest(before: string, b: Build)
    requires WellFormed(b) && ExpectedServices(before, b).Some?
    ensures var list := Split(ExpectedServices(before, b).value);
            var was := Services(before);
            && Distinct(list)
            && (forall s :: s in list <==>
                  (s in was && s !in b.obsolete)
                  || (s == b.component && (forall k :: k in was ==> k !in b.known)))
            && (exists i :: 0 <= i < |list| && list[i] in b.known)
            && Kept(was, b.obsolete) <= list
  {
    AfterFacts(before, b);
    var l := After(before, b);
    forall i | 0 <= i < |l| ensures Colonless(l[i]) { ComponentFacts(l[i]); }
    SplitJoin(l);
    hide IsComponent, Split;
    KeptFacts(Services(before), b.obsolete);
    var kept := Kept(Services(before), b.obsolete);
    assert (exists i :: 0 <= i < |kept| && kept[i] in b.known) <==> exists k :: k in kept && k in b.known;
    assert forall k :: k in Services(before) && k in b.known ==> k in kept;
  }

  /** A rerun finds nothing to do, exactly as long as the list it wrote still fits the bounds. */
  lemma RerunChangesNothing(before: string, b: Build)
    requires WellFormed(b) && ExpectedServices(before, b).Some?
    ensures var after := ExpectedServices(before, b).value;
            && (ExpectedServices(after, b) == Some(after)
                <==> |After(before, b)| <= MAX_SERVICES && |after| <= MAX_LENGTH)
            && (ExpectedServices(after, b) != Some(after) ==> ExpectedServices(after, b) == None)
  {
    hide IsComponent, Split, Services, Kept, Join, WithComponent, AllComponents, Distinct, WellFormed;
    AfterFacts(before, b);
    ReadBack(before, b);
    KeptAll(After(before, b), b.obsolete);
    SpellingThere(After(before, b), b);
  }

  lemma SpellingThere(l: seq<string>, b: Build)
    requires exists i :: 0 <= i < |l| && l[i] in b.known
    ensures WithComponent(l, b) == l
  {
  }

  lemma ReadBack(before: string, b: Build)
    requires WellFormed(b) && ExpectedServices(before, b).Some?
    ensures Services(ExpectedServices(before, b).value) == After(before, b)
  {
    AfterFacts(before, b);
    var l := After(before, b);
    forall i | 0 <= i < |l| ensures Colonless(l[i]) && l[i] != "" && l[i] != "null" { ComponentFacts(l[i]); }
    SplitJoin(l);
    hide IsComponent, Split, Kept, Editable;
    NotSpecial(l);
  }

  /** A list with a service in it never reads as empty or as unset. */
  lemma NotSpecial(l: seq<string>)
    requires l != [] && forall i :: 0 <= i < |l| ==> Colonless(l[i]) && l[i] != "" && l[i] != "null"
    ensures Join(l) != "" && Join(l) != "null"
  {
    if |l| > 1 {
      assert Join(l)[|l[0]|] == ':';
    }
  }

  lemma {:induction false} KeptAll(l: seq<string>, obsolete: seq<string>)
    requires forall s :: s in l ==> s !in obsolete
    ensures Kept(l, obsolete) == l
    decreases |l|
  {
    if l != [] {
      KeptAll(l[..|l| - 1], obsolete);
      assert l == l[..|l| - 1] + [l[|l| - 1]];
    }
  }

  // ------------------------------------------------------------------ the app's own tables

  const PACKAGE := "io.panelassistant.android"
  const OLD_PACKAGE := "io.github.maxlyth.hapaneld"
  const SHORT_CLASS := ".input.PanelAccessibilityService"
  const OLD_CLASS := OLD_PACKAGE + SHORT_CLASS
  const NEW_CLASS := PACKAGE + SHORT_CLASS

  function Component(class_: string): string { PACKAGE + "/" + class_ }

  const OLD_BUILD := Build(Component(OLD_CLASS), [Component(OLD_CLASS)], [])
  const NEW_BUILD :=
    Build(Component(NEW_CLASS), [Component(SHORT_CLASS), Component(NEW_CLASS)], [Component(OLD_CLASS)])

  predicate Names(s: string) { forall k :: 0 <= k < |s| ==> NameChar(s[k]) }

  lemma NamesConcat(a: string, b: string)
    requires Names(a) && Names(b)
    ensures Names(a + b)
  {
  }

  lemma PackageNames()
    ensures Names(PACKAGE) && Names(OLD_PACKAGE)
  {
  }

  lemma ServiceNames()
    ensures Names(SHORT_CLASS)
  {
  }

  lemma ClassNames()
    ensures Names(PACKAGE) && Names(OLD_CLASS) && Names(NEW_CLASS) && Names(SHORT_CLASS)
  {
    hide Names, PACKAGE, OLD_PACKAGE, SHORT_CLASS;
    PackageNames();
    ServiceNames();
    NamesConcat(PACKAGE, SHORT_CLASS);
    NamesConcat(OLD_PACKAGE, SHORT_CLASS);
  }

  /** Where the names of the two packages and of the class they share begin, and differ. */
  lemma Initials()
    ensures |PACKAGE| > 3 && |OLD_PACKAGE| > 3 && |SHORT_CLASS| > 0
    ensures PACKAGE[0] == 'i' && OLD_PACKAGE[0] == 'i' && SHORT_CLASS[0] == '.'
    ensures PACKAGE[3] == 'p' && OLD_PACKAGE[3] == 'g'
  {
  }

  lemma ComponentOf(package: string, class_: string)
    requires package != "" && Letter(package[0]) && Names(package)
    requires class_ != "" && (Letter(class_[0]) || class_[0] == '.') && Names(class_)
    ensures IsComponent(package + "/" + class_)
  {
    var s := package + "/" + class_;
    assert forall k :: 0 <= k < |package| ==> s[k] == package[k];
    assert forall k :: |package| < k < |s| ==> s[k] == class_[k - |package| - 1];
    assert SlashAt(s, |package|);
  }

  /** Both builds' tables are well formed, so the laws above apply to them. */
  lemma BuildsAreWellFormed()
    ensures WellFormed(OLD_BUILD) && WellFormed(NEW_BUILD)
  {
    hide Names, IsComponent, PACKAGE, OLD_PACKAGE, SHORT_CLASS;
    ClassNames();
    Initials();
    ComponentOf(PACKAGE, OLD_CLASS);
    ComponentOf(PACKAGE, NEW_CLASS);
    ComponentOf(PACKAGE, SHORT_CLASS);
    DifferentClass(OLD_CLASS, NEW_CLASS, 3);
    DifferentClass(OLD_CLASS, SHORT_CLASS, 0);
    hide Component, OLD_CLASS, NEW_CLASS;
  }

  lemma DifferentClass(a: string, b: string, i: nat)
    requires i < |a| && i < |b| && a[i] != b[i]
    ensures Component(a) != Component(b)
  {
    assert Component(a)[|PACKAGE| + 1 + i] == a[i];
    assert Component(b)[|PACKAGE| + 1 + i] == b[i];
  }
}
