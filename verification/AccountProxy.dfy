// The speech selectors of linked accounts: a selector is printed from an account source and parsed
// back into one.
module AccountProxy {
  import opened Common

  datatype Provider = Provider(id: string, prefix: string)

  datatype AccountSource = AccountSource(provider: string, accountId: string)

  const MAX_LENGTH := 512
  const KILO := "kilo"
  const CODE_ARTS := "codeArts"
  const CODE_ARTS_MARK := "codearts:"

  /** What the two functions rely on in the provider table: distinct ids, distinct colon-free prefixes, and
      room for a hash behind each prefix. */
  predicate TableOk(table: seq<Provider>) {
    && (forall i :: 0 <= i < |table| ==> ':' !in table[i].prefix && |table[i].prefix| + 65 <= MAX_LENGTH)
    && (forall i, j :: 0 <= i < j < |table| ==> table[i].id != table[j].id)
    && (forall i, j :: 0 <= i < j < |table| ==> table[i].prefix != table[j].prefix)
  }

  function Split(s: string): (parts: seq<string>)
    ensures parts != []
  {
    if s == "" then [""]
    else
      var rest := Split(s[1..]);
      if s[0] == ':' then [""] + rest else [[s[0]] + rest[0]] + rest[1..]
  }

  function Join(parts: seq<string>): string
    requires parts != []
  {
    if |parts| == 1 then parts[0] else parts[0] + ":" + Join(parts[1..])
  }

  predicate IsHex(c: char) { 'a' <= c <= 'f' || 'A' <= c <= 'F' || '0' <= c <= '9' }

  predicate IsAccountHash(s: string) { |s| == 64 && forall i :: 0 <= i < |s| ==> IsHex(s[i]) }

  predicate IsSpace(c: char) {
    c in {'\t', '\n', '\U{0B}', '\U{0C}', '\r', ' ', '\U{A0}', '\U{1680}', '\U{2028}', '\U{2029}', '\U{202F}',
          '\U{205F}', '\U{3000}', '\U{FEFF}'} || '\U{2000}' <= c <= '\U{200A}'
  }

  predicate Blank(s: string) { forall i :: 0 <= i < |s| ==> IsSpace(s[i]) }

  function FindByPrefix(table: seq<Provider>, prefix: string): Option<Provider> {
    if table == [] then None
    else if table[0].prefix == prefix then Some(table[0]) else FindByPrefix(table[1..], prefix)
  }

  function FindById(table: seq<Provider>, id: string): Option<Provider> {
    if table == [] then None
    else if table[0].id == id then Some(table[0]) else FindById(table[1..], id)
  }

  // speechSourceFromSelector
  function Parse(table: seq<Provider>, selector: string): Option<AccountSource> {
    if |selector| > MAX_LENGTH then None
    else
      var parts := Split(selector);
      var provider := FindByPrefix(table, parts[0]);
      if provider.None? || |parts| < 2 || !IsAccountHash(parts[1]) then None
      else
        var model := parts[2..];
        if (if provider.value.id == KILO then model == [] || Blank(Join(model)) else model != []) then None
        else Some(AccountSource(provider.value.id,
                                if provider.value.id == CODE_ARTS then CODE_ARTS_MARK + parts[1] else parts[1]))
  }

  // fixedAccountSpeechModels; None where the models are not fixed
  function Print(table: seq<Provider>, source: AccountSource): Option<seq<string>> {
    var provider := FindById(table, source.provider);
    if provider.None? then Some([])
    else if provider.value.id == KILO then None
    else
      var account :=
        if provider.value.id != CODE_ARTS then source.accountId
        else if CODE_ARTS_MARK <= source.accountId then source.accountId[|CODE_ARTS_MARK|..] else "";
      Some(if account != "" then [provider.value.prefix + ":" + account] else [])
  }

  /** The hash of an account id, behind the mark that CodeArts ids carry. */
  predicate Hashed(source: AccountSource, hash: string) {
    IsAccountHash(hash) && source.accountId == (if source.provider == CODE_ARTS then CODE_ARTS_MARK + hash else hash)
  }

  // ---------- splitting ----------

  lemma {:induction false} JoinSplit(s: string)
    ensures Join(Split(s)) == s
    ensures forall i :: 0 <= i < |Split(s)| ==> ':' !in Split(s)[i]
  {
    if s != "" {
      JoinSplit(s[1..]);
      var rest := Split(s[1..]);
      if s[0] == ':' {
        assert ([""] + rest)[1..] == rest;
      } else if |rest| > 1 {
        assert ([[s[0]] + rest[0]] + rest[1..])[1..] == rest[1..];
      }
    }
  }

  lemma {:induction false} SplitHead(head: string, tail: string)
    requires ':' !in head
    ensures Split(head + ":" + tail) == [head] + Split(tail)
  {
    var s := head + ":" + tail;
    if head == "" {
      assert s[1..] == tail;
    } else {
      assert s[1..] == head[1..] + ":" + tail;
      SplitHead(head[1..], tail);
      assert [head[0]] + head[1..] == head;
    }
  }

  lemma {:induction false} SplitWhole(s: string)
    requires ':' !in s
    ensures Split(s) == [s]
  {
    if s != "" {
      SplitWhole(s[1..]);
      assert [s[0]] + s[1..] == s;
    }
  }

  lemma HashHasNoColon(hash: string)
    requires IsAccountHash(hash)
    ensures ':' !in hash
  {
  }

  // ---------- finding ----------

  lemma {:induction false} FoundById(table: seq<Provider>, i: nat)
    requires TableOk(table) && i < |table|
    ensures FindById(table, table[i].id) == Some(table[i])
  {
    if i > 0 {
      FoundById(table[1..], i - 1);
    }
  }

  lemma {:induction false} FoundByPrefix(table: seq<Provider>, i: nat)
    requires TableOk(table) && i < |table|
    ensures FindByPrefix(table, table[i].prefix) == Some(table[i])
  {
    if i > 0 {
      FoundByPrefix(table[1..], i - 1);
    }
  }

  lemma {:induction false} FoundIsListed(table: seq<Provider>, prefix: string) returns (i: nat)
    requires FindByPrefix(table, prefix).Some?
    ensures i < |table| && table[i] == FindByPrefix(table, prefix).value && table[i].prefix == prefix
  {
    if table[0].prefix == prefix {
      i := 0;
    } else {
      i := FoundIsListed(table[1..], prefix);
      i := i + 1;
    }
  }

  // ---------- round trips ----------

  lemma ParsePlain(table: seq<Provider>, i: nat, hash: string)
    requires TableOk(table) && i < |table| && table[i].id != KILO && IsAccountHash(hash)
    ensures Parse(table, table[i].prefix + ":" + hash) ==
            Some(AccountSource(table[i].id, if table[i].id == CODE_ARTS then CODE_ARTS_MARK + hash else hash))
  {
    HashHasNoColon(hash);
    SplitHead(table[i].prefix, hash);
    SplitWhole(hash);
    FoundByPrefix(table, i);
  }

  // Printing the source of a provider other than Kilo and parsing the result gives the source back
  // exactly when its account id is a hash.
  lemma PrintThenParse(table: seq<Provider>, i: nat, source: AccountSource)
    requires TableOk(table) && i < |table| && table[i].id != KILO && source.provider == table[i].id
    ensures (exists selector :: Print(table, source) == Some([selector]) && Parse(table, selector) == Some(source)) <==>
            (exists hash :: Hashed(source, hash))
  {
    FoundById(table, i);
    if hash :| Hashed(source, hash) {
      ParsePlain(table, i, hash);
      assert Print(table, source) == Some([table[i].prefix + ":" + hash]);
    }
    if selector :| Print(table, source) == Some([selector]) && Parse(table, selector) == Some(source) {
      assert Hashed(source, Split(selector)[1]);
    }
  }

  // Parsing a selector and printing the source gives exactly that selector, also for CodeArts; a
  // Kilo selector is accepted only with a model, and its source prints no fixed selector.
  lemma ParseThenPrint(table: seq<Provider>, selector: string)
    requires TableOk(table) && Parse(table, selector).Some?
    ensures var source := Parse(table, selector).value;
            Print(table, source) == if source.provider == KILO then None else Some([selector])
  {
    var parts := Split(selector);
    var i := FoundIsListed(table, parts[0]);
    FoundById(table, i);
    JoinSplit(selector);
    if table[i].id != KILO {
      assert |parts| == 2;
      assert parts[1..] == [parts[1]];
      assert selector == parts[0] + ":" + parts[1];
    }
  }

  // Two selectors of the same source, outside Kilo, are the same selector.
  lemma ParseIsInjective(table: seq<Provider>, a: string, b: string)
    requires TableOk(table) && Parse(table, a).Some? && Parse(table, a) == Parse(table, b)
    requires Parse(table, a).value.provider != KILO
    ensures a == b
  {
    ParseThenPrint(table, a);
    ParseThenPrint(table, b);
  }

  // ---------- what is accepted and what is printed ----------

  lemma HexDigits(c: char)
    ensures IsHex(c) <==> c in "0123456789abcdefABCDEF"
  {
  }

  /** The selector is that of the provider at `i` with this hash; one of Kilo goes on with a model in
      which there is more than white space. */
  predicate Selects(table: seq<Provider>, selector: string, i: nat, hash: string, model: string) {
    && i < |table| && |selector| <= 512 && IsAccountHash(hash)
    && if table[i].id == "kilo"
       then selector == table[i].prefix + ":" + hash + ":" + model && exists c :: c in model && !IsSpace(c)
       else selector == table[i].prefix + ":" + hash
  }

  /** The source of an account. */
  function SourceFor(id: string, hash: string): AccountSource {
    AccountSource(id, if id == "codeArts" then "codearts:" + hash else hash)
  }

  lemma BlankIs(s: string)
    ensures Blank(s) <==> forall c :: c in s ==> IsSpace(c)
  {
    hide IsSpace;
    assert forall i :: 0 <= i < |s| ==> s[i] in s;
  }

  lemma SelectedParses(table: seq<Provider>, selector: string, i: nat, hash: string, model: string)
    requires TableOk(table) && Selects(table, selector, i, hash, model)
    ensures Parse(table, selector) == Some(SourceFor(table[i].id, hash))
  {
    HashHasNoColon(hash);
    FoundByPrefix(table, i);
    if table[i].id == "kilo" {
      assert selector == table[i].prefix + ":" + (hash + ":" + model);
      SplitHead(table[i].prefix, hash + ":" + model);
      SplitHead(hash, model);
      assert Split(selector)[2..] == Split(model);
      JoinSplit(model);
      BlankIs(model);
    } else {
      SplitHead(table[i].prefix, hash);
      SplitWhole(hash);
    }
  }

  lemma ParsedSelects(table: seq<Provider>, selector: string) returns (i: nat, hash: string, model: string)
    requires Parse(table, selector).Some?
    ensures Selects(table, selector, i, hash, model)
    ensures Parse(table, selector) == Some(SourceFor(table[i].id, hash))
  {
    hide IsAccountHash, IsSpace;
    var parts := Split(selector);
    i := FoundIsListed(table, parts[0]);
    JoinSplit(selector);
    hash, model := parts[1], "";
    if |parts| > 2 {
      model := Join(parts[2..]);
      assert parts[1..][1..] == parts[2..];
      assert selector == parts[0] + ":" + (hash + ":" + model);
      assert selector == parts[0] + ":" + hash + ":" + model;
      BlankIs(model);
    } else {
      assert parts[2..] == [];
      assert parts[1..] == [hash];
    }
  }

  // A selector is accepted exactly if it is that of a listed provider with a hash, and for Kilo alone with
  // a model; what it gives is the source of that account.
  lemma ParseExactly(table: seq<Provider>, selector: string, source: AccountSource)
    requires TableOk(table)
    ensures Parse(table, selector) == Some(source) <==>
            exists i: nat, hash, model ::
              Selects(table, selector, i, hash, model) && source == SourceFor(table[i].id, hash)
  {
    hide Parse, SourceFor;
    if Parse(table, selector) == Some(source) {
      var i, hash, model := ParsedSelects(table, selector);
    }
    if i: nat, hash, model :| Selects(table, selector, i, hash, model) && source == SourceFor(table[i].id, hash) {
      SelectedParses(table, selector, i, hash, model);
    }
  }

  lemma {:induction false} IdListed(table: seq<Provider>, id: string) returns (i: nat)
    requires FindById(table, id).Some?
    ensures i < |table| && table[i] == FindById(table, id).value && table[i].id == id
  {
    if table[0].id == id {
      i := 0;
    } else {
      i := IdListed(table[1..], id);
      i := i + 1;
    }
  }

  // The source of an account prints its prefix and account id, in one selector; for Kilo the selectors are
  // not fixed.
  lemma AccountPrints(table: seq<Provider>, i: nat, account: string)
    requires TableOk(table) && i < |table| && account != ""
    ensures Print(table, SourceFor(table[i].id, account)) ==
            if table[i].id == "kilo" then None else Some([table[i].prefix + ":" + account])
  {
    FoundById(table, i);
  }

  // And nothing else prints a selector: not an unlisted provider, an empty account id, or a CodeArts id
  // that is not its mark with something behind it.
  lemma PrintedAccount(table: seq<Provider>, source: AccountSource) returns (i: nat, account: string)
    requires Print(table, source) != Some([])
    ensures i < |table| && (table[i].id != "kilo" ==> account != "" && source == SourceFor(table[i].id, account))
    ensures table[i].id == source.provider
  {
    i := IdListed(table, source.provider);
    account := if source.provider == "codeArts" && CODE_ARTS_MARK <= source.accountId
               then source.accountId[|CODE_ARTS_MARK|..] else source.accountId;
    if table[i].id == "codeArts" {
      assert source.accountId == CODE_ARTS_MARK + account;
    }
  }
}
