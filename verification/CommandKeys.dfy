/** The text of workflow command keys. */
module CommandKeys {
  import opened Basics
  import opened Sql
  import opened AgentModel
  import AgentRuns

  function Digit(d: nat): char
    requires d < 10
  {
    ('0' as int + d) as char
  }

  /** Decimal notation, as an f-string renders an int. */
  function Decimal(n: nat): (s: string)
    ensures |s| >= 1
  {
    if n < 10 then [Digit(n)] else Decimal(n / 10) + [Digit(n % 10)]
  }

  lemma {:induction false} DecimalInjective(m: nat, n: nat)
    requires Decimal(m) == Decimal(n)
    ensures m == n
  {
    var s := Decimal(m);
    assert s[|s| - 1] == Digit(m % 10) && s[|s| - 1] == Digit(n % 10);
    if m >= 10 && n >= 10 {
      assert s[..|s| - 1] == Decimal(m / 10) && s[..|s| - 1] == Decimal(n / 10);
      DecimalInjective(m / 10, n / 10);
    }
  }

  function KindText(k: CommandKind): string {
    match k
    case StartKind => "start"
    case CancelKind => "cancel"
    case ResumeKind => "resume"
  }

  /** `uuidText` is the canonical text of a UUID. */
  function KeyText(k: CommandKey, uuidText: Uuid -> string): string {
    KindText(k.kind) + ":" + uuidText(k.attemptId) + ":generation-" + Decimal(k.generation)
  }

  /** What the keys need of the text of a UUID: different ones differ, and none contains the separator. */
  ghost predicate Separable(uuidText: Uuid -> string) {
    && (forall u :: Free(uuidText(u), ':'))
    && (forall u, v :: uuidText(u) == uuidText(v) ==> u == v)
  }

  lemma {:induction false} DecimalIsFree(n: nat)
    ensures Free(Decimal(n), ':')
  {
    if n >= 10 { DecimalIsFree(n / 10); }
  }

  /** Such texts exist. */
  lemma DecimalIsSeparable()
    ensures Separable(Decimal)
  {
    forall u: Uuid ensures Free(Decimal(u), ':') { DecimalIsFree(u); }
    forall u: Uuid, v: Uuid | Decimal(u) == Decimal(v) ensures u == v { DecimalInjective(u, v); }
  }

  /** A key falls into its three parts at the separators. */
  lemma KeyParts(k: CommandKey, uuidText: Uuid -> string)
    requires Separable(uuidText)
    ensures Split(KeyText(k, uuidText), ':') ==
            [KindText(k.kind), uuidText(k.attemptId), "generation-" + Decimal(k.generation)]
  {
    var kind, attempt, last := KindText(k.kind), uuidText(k.attemptId), "generation-" + Decimal(k.generation);
    DecimalIsFree(k.generation);
    assert KeyText(k, uuidText) == kind + [':'] + (attempt + [':'] + last);
    SplitAtSeparator(kind, attempt + [':'] + last, ':');
    SplitAtSeparator(attempt, last, ':');
    SplitAtSeparator(last, "", ':');
  }

  /** Different keys have different texts. */
  lemma KeyTextInjective(j: CommandKey, k: CommandKey, uuidText: Uuid -> string)
    requires Separable(uuidText) && KeyText(j, uuidText) == KeyText(k, uuidText)
    ensures j == k
  {
    KeyParts(j, uuidText);
    KeyParts(k, uuidText);
    var parts := Split(KeyText(j, uuidText), ':');
    assert parts[0][0] == KindText(j.kind)[0] == KindText(k.kind)[0];
    var prefix := |"generation-"|;
    assert parts[2][prefix..] == Decimal(j.generation) && parts[2][prefix..] == Decimal(k.generation);
    DecimalInjective(j.generation, k.generation);
  }

  /** No two commands of a sound database share a `command_key`. */
  lemma CommandKeysNeverCollide(db: Db, c: Uuid, d: Uuid, uuidText: Uuid -> string)
    requires AgentRuns.Inv(db) && Separable(uuidText) && c in db.commands && d in db.commands && c != d
    ensures KeyText(db.commands[c], uuidText) != KeyText(db.commands[d], uuidText)
  {
    if KeyText(db.commands[c], uuidText) == KeyText(db.commands[d], uuidText) {
      KeyTextInjective(db.commands[c], db.commands[d], uuidText);
    }
  }

  /** The key of each kind of command. */
  lemma KeyTexts(a: Uuid, g: nat, uuidText: Uuid -> string)
    ensures KeyText(CommandKey(StartKind, a, g), uuidText) == "start:" + uuidText(a) + ":generation-" + Decimal(g)
    ensures KeyText(CommandKey(CancelKind, a, g), uuidText) == "cancel:" + uuidText(a) + ":generation-" + Decimal(g)
    ensures KeyText(CommandKey(ResumeKind, a, g), uuidText) == "resume:" + uuidText(a) + ":generation-" + Decimal(g)
  {
    assert "start" + ":" == "start:" && "cancel" + ":" == "cancel:" && "resume" + ":" == "resume:";
  }

  predicate AllDigits(s: string) { forall i :: 0 <= i < |s| ==> '0' <= s[i] <= '9' }

  /** The number that digits stand for. */
  function NumberOf(s: string): nat
    requires AllDigits(s)
  {
    if s == "" then 0 else NumberOf(s[..|s| - 1]) * 10 + (s[|s| - 1] as int - '0' as int)
  }

  /** Decimal notation reads back as the number, without a leading zero. */
  lemma {:induction false} DecimalReadsBack(n: nat)
    ensures AllDigits(Decimal(n)) && NumberOf(Decimal(n)) == n
    ensures Decimal(n)[0] == '0' ==> n == 0 && Decimal(n) == "0"
  {
    var s := Decimal(n);
    if n < 10 {
      assert s[..0] == "";
      assert NumberOf("") == 0;
    } else {
      DecimalReadsBack(n / 10);
      assert s[..|s| - 1] == Decimal(n / 10);
    }
  }
}
