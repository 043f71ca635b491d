/** Labels the operator puts on pods and selects pods by, and the pattern that filters user labels. */
module Labels {
  import opened Types

  const NAME_KEY := "builder.builder-hub.dev/name"
  const MODE_KEY := "builder.builder-hub.dev/mode"

  // -- The label-value pattern, as a regular expression with its usual meaning ---------------

  datatype Regex =
    | Class(chars: set<char>)
    | Cat(first: Regex, second: Regex)
    | Star(body: Regex)
    | Optional(body: Regex)

  /** `s` belongs to the language of `r`; the Go pattern is anchored at both ends. */
  ghost predicate Matches(r: Regex, s: string)
    decreases r, |s|
  {
    match r
    case Class(chars) => |s| == 1 && s[0] in chars
    case Cat(first, second) => exists i | 0 <= i <= |s| :: Matches(first, s[..i]) && Matches(second, s[i..])
    case Star(body) => s == "" || exists i | 0 < i <= |s| :: Matches(body, s[..i]) && Matches(r, s[i..])
    case Optional(body) => s == "" || Matches(body, s)
  }

  predicate IsAlphanumeric(c: char) {
    'A' <= c <= 'Z' || 'a' <= c <= 'z' || '0' <= c <= '9'
  }

  predicate IsLabelChar(c: char) {
    IsAlphanumeric(c) || c == '-' || c == '_' || c == '.'
  }

  const ALPHANUMERIC: set<char> := set c: char | IsAlphanumeric(c)
  const LABEL_CHARS: set<char> := set c: char | IsLabelChar(c)

  /** ^(([A-Za-z0-9][-A-Za-z0-9_.]*)?[A-Za-z0-9])?$ */
  const LABEL_PATTERN :=
    Optional(Cat(Optional(Cat(Class(ALPHANUMERIC), Star(Class(LABEL_CHARS)))), Class(ALPHANUMERIC)))

  predicate ValidLabelValue(s: string) {
    s == "" || (IsAlphanumeric(s[0]) && IsAlphanumeric(s[|s| - 1]) && forall i | 0 <= i < |s| :: IsLabelChar(s[i]))
  }

  lemma {:induction false} StarOfClass(chars: set<char>, s: string)
    ensures Matches(Star(Class(chars)), s) <==> forall i | 0 <= i < |s| :: s[i] in chars
    decreases |s|
  {
    if s != "" {
      StarOfClass(chars, s[1..]);
      var r := Star(Class(chars));
      if Matches(r, s) {
        var i :| 0 < i <= |s| && Matches(Class(chars), s[..i]) && Matches(r, s[i..]);
        assert i == 1 && s[0] == s[..i][0];
        assert forall j | 1 <= j < |s| :: s[j] == s[1..][j - 1];
      }
      if forall i | 0 <= i < |s| :: s[i] in chars {
        assert Matches(Class(chars), s[..1]) && Matches(r, s[1..]);
      }
    }
  }

  lemma Head(s: string)
    ensures Matches(Cat(Class(ALPHANUMERIC), Star(Class(LABEL_CHARS))), s)
       <==> s != "" && IsAlphanumeric(s[0]) && forall i | 0 <= i < |s| :: IsLabelChar(s[i])
  {
    if s != "" {
      StarOfClass(LABEL_CHARS, s[1..]);
      assert forall j | 1 <= j < |s| :: s[j] == s[1..][j - 1];
      assert Matches(Class(ALPHANUMERIC), s[..1]) <==> IsAlphanumeric(s[0]);
      assert forall i | 0 <= i <= |s| :: Matches(Class(ALPHANUMERIC), s[..i]) ==> i == 1;
      assert (forall i | 0 <= i < |s[1..]| :: s[1..][i] in LABEL_CHARS)
          <==> (forall i | 1 <= i < |s| :: IsLabelChar(s[i]));
    }
  }

  lemma PatternIsRecognised(s: string)
    ensures Matches(LABEL_PATTERN, s) <==> ValidLabelValue(s)
  {
    if s != "" {
      var n := |s| - 1;
      var body := LABEL_PATTERN.body;
      assert Matches(LABEL_PATTERN, s) <==> Matches(body, s);
      Head(s[..n]);
      assert forall i | 0 <= i <= |s| :: Matches(Class(ALPHANUMERIC), s[i..]) ==> i == n;
      assert Matches(Class(ALPHANUMERIC), s[n..]) <==> IsAlphanumeric(s[n]);
      assert Matches(body, s) <==> Matches(body.first, s[..n]) && Matches(body.second, s[n..]);
    }
  }

  lemma RecogniserMeaning(s: string)
    ensures ValidLabelValue(s) <==>
            s == ""
            || (s[0] !in {'-', '_', '.'} && s[|s| - 1] !in {'-', '_', '.'}
                && forall i | 0 <= i < |s| ::
                     'A' <= s[i] <= 'Z' || 'a' <= s[i] <= 'z' || '0' <= s[i] <= '9' || s[i] in {'-', '_', '.'})
  {
  }

  /**
   * The pattern, and the recogniser the rest of the model uses, accept exactly the empty string
   * and the strings of letters, digits, '-', '_' and '.' with a letter or digit at both ends.
   */
  lemma PatternMeaning(s: string)
    ensures Matches(LABEL_PATTERN, s) <==> ValidLabelValue(s)
    ensures Matches(LABEL_PATTERN, s) <==>
            s == ""
            || (s[0] !in {'-', '_', '.'} && s[|s| - 1] !in {'-', '_', '.'}
                && forall i | 0 <= i < |s| ::
                     'A' <= s[i] <= 'Z' || 'a' <= s[i] <= 'z' || '0' <= s[i] <= '9' || s[i] in {'-', '_', '.'})
  {
    hide Matches, ValidLabelValue;
    PatternIsRecognised(s);
    RecogniserMeaning(s);
  }

  // -- The label map -----------------------------------------------------------------------

  function Reserved(b: Builder, mode: string): map<string, string> {
    map[NAME_KEY := b.name, MODE_KEY := mode]
  }

  function Accepted(labels: map<string, string>): map<string, string> {
    map k | k in labels && ValidLabelValue(labels[k]) :: labels[k]
  }

  function LabelMap(b: Builder, mode: string): map<string, string> {
    Reserved(b, mode) + Accepted(b.spec.labels)
  }

  /** `base` overlaid with the accepted labels that are no longer in `todo`. */
  function Visited(base: map<string, string>, labels: map<string, string>, todo: set<string>): map<string, string> {
    base + map k | k in labels && k !in todo && ValidLabelValue(labels[k]) :: labels[k]
  }

  /** Visiting one more label adds it when it is accepted; visiting all of them is the overlay. */
  lemma VisitedGrows(base: map<string, string>, labels: map<string, string>, todo: set<string>, k: string)
    requires k in labels && k in todo
    ensures Visited(base, labels, todo - {k}) ==
            if ValidLabelValue(labels[k])
            then Visited(base, labels, todo)[k := labels[k]]
            else Visited(base, labels, todo)
  {
    hide ValidLabelValue;
  }

  lemma VisitedEnds(base: map<string, string>, labels: map<string, string>)
    ensures Visited(base, labels, labels.Keys) == base
    ensures Visited(base, labels, {}) == base + Accepted(labels)
  {
    hide ValidLabelValue;
  }

  /** The loop visits the user labels in any order. */
  method LabelsForBuilder(b: Builder, mode: string) returns (m: map<string, string>)
    ensures m == LabelMap(b, mode)
  {
    hide Visited, ValidLabelValue;
    m := map[NAME_KEY := b.name, MODE_KEY := mode];
    VisitedEnds(m, b.spec.labels);
    var todo := b.spec.labels.Keys;
    while todo != {}
      invariant todo <= b.spec.labels.Keys
      invariant m == Visited(Reserved(b, mode), b.spec.labels, todo)
      decreases |todo|
    {
      var k :| k in todo;
      VisitedGrows(Reserved(b, mode), b.spec.labels, todo, k);
      if ValidLabelValue(b.spec.labels[k]) {
        m := m[k := b.spec.labels[k]];
      }
      todo := todo - {k};
    }
  }

  /** Label selection in Kubernetes: every selector pair is present on the object. */
  predicate Selects(selector: map<string, string>, labels: map<string, string>) {
    forall k | k in selector :: k in labels && labels[k] == selector[k]
  }

  /** The value a reserved key ends up with: an accepted user label wins over the operator's own. */
  function Overridden(b: Builder, k: string, own: string): string {
    if k in b.spec.labels && ValidLabelValue(b.spec.labels[k]) then b.spec.labels[k] else own
  }

  function NameLabel(b: Builder): string {
    Overridden(b, NAME_KEY, b.name)
  }

  function ModeLabel(b: Builder, mode: string): string {
    Overridden(b, MODE_KEY, mode)
  }

  /**
   * A query by name finds the pods of exactly those builders whose name label has that value,
   * which need not be their name.
   */
  lemma NameQueryFinds(b: Builder, mode: string, name: string)
    ensures Selects(map[NAME_KEY := name], LabelMap(b, mode)) <==> NameLabel(b) == name
  {
    LabelMapMeaning(b, mode, NAME_KEY);
    assert NAME_KEY in map[NAME_KEY := name];
  }

  predicate LeavesNameAlone(b: Builder) {
    NAME_KEY in b.spec.labels && ValidLabelValue(b.spec.labels[NAME_KEY]) ==> b.spec.labels[NAME_KEY] == b.name
  }

  /**
   * The endpoint query asks for the name label alone. It finds the pods the operator renders
   * exactly when no accepted user label puts a different value under that key.
   */
  lemma EndpointQueryFindsOwnPods(b: Builder, mode: string)
    ensures Selects(map[NAME_KEY := b.name], LabelMap(b, mode)) <==> LeavesNameAlone(b)
  {
    NameQueryFinds(b, mode, b.name);
  }

  predicate Accepts(b: Builder, k: string) {
    k in b.spec.labels && ValidLabelValue(b.spec.labels[k])
  }

  /** Every accepted label of `a` outside the reserved keys is one of `b`, with the same value. */
  predicate OtherLabelsShared(a: Builder, b: Builder) {
    forall k | k in a.spec.labels && Accepts(a, k) && k != NAME_KEY && k != MODE_KEY ::
      Accepts(b, k) && a.spec.labels[k] == b.spec.labels[k]
  }

  /** When the full label map of one builder, used as a selector, selects the pods of another. */
  lemma SelectorFinds(a: Builder, aMode: string, b: Builder, bMode: string)
    ensures Selects(LabelMap(a, aMode), LabelMap(b, bMode)) <==>
            NameLabel(a) == NameLabel(b) && ModeLabel(a, aMode) == ModeLabel(b, bMode) && OtherLabelsShared(a, b)
  {
    var selector, labels := LabelMap(a, aMode), LabelMap(b, bMode);
    forall k
      ensures (k in selector ==> k in labels && labels[k] == selector[k]) <==>
              (if k == NAME_KEY then NameLabel(a) == NameLabel(b)
               else if k == MODE_KEY then ModeLabel(a, aMode) == ModeLabel(b, bMode)
               else Accepts(a, k) ==> Accepts(b, k) && a.spec.labels[k] == b.spec.labels[k])
    {
      LabelMapMeaning(a, aMode, k);
      LabelMapMeaning(b, bMode, k);
    }
    assert NAME_KEY in selector && MODE_KEY in selector;
    assert NAME_KEY[24] == 'n' && MODE_KEY[24] == 'm';
  }

  /** Every label is either a reserved pair or an accepted user label, and accepted user labels win. */
  lemma LabelMapMeaning(b: Builder, mode: string, k: string)
    ensures k in LabelMap(b, mode) <==>
            k == NAME_KEY || k == MODE_KEY || (k in b.spec.labels && ValidLabelValue(b.spec.labels[k]))
    ensures NAME_KEY == "builder.builder-hub.dev/name" && MODE_KEY == "builder.builder-hub.dev/mode"
    ensures k in b.spec.labels && ValidLabelValue(b.spec.labels[k]) ==> LabelMap(b, mode)[k] == b.spec.labels[k]
    ensures !(k in b.spec.labels && ValidLabelValue(b.spec.labels[k])) && k == NAME_KEY ==>
            LabelMap(b, mode)[k] == b.name
    ensures !(k in b.spec.labels && ValidLabelValue(b.spec.labels[k])) && k == MODE_KEY ==> LabelMap(b, mode)[k] == mode
  {
  }
}
