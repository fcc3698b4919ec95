/**
 * `prepare` on the client's own endpoint templates, for any configured
 * server, and on the cases that show how it matches: by substring, first
 * occurrence only, with a value equal to the placeholder counting as no match,
 * and with each substitution changing what later keys match.
 */
module PrepareExamples {
  import opened Values
  import opened Text
  import opened Templater
  import opened Resources

  /** A server name as configured: a host, with a colon only in front of a port number. */
  predicate HostName(server: string)
  {
    forall j :: 0 <= j < |server| && server[j] == ':' ==>
      j + 1 < |server| && '0' <= server[j + 1] <= '9'
  }

  /** In the server root no colon is followed by a letter. */
  lemma RootAvoids(server: string, c: char)
    requires HostName(server) && 'a' <= c <= 'z'
    ensures Avoids(ServerRoot(server), ':', c)
  {
    assert Avoids("http://", ':', c);
    AvoidsConcat("http://", server, ':', c);
  }

  /** The text before `:id` in the record template. */
  function RecordHead(server: string): string
  {
    ServerRoot(server) + "/registry/record/"
  }

  lemma RecordHeadAvoids(server: string, c: char)
    requires HostName(server) && 'a' <= c <= 'z'
    ensures Avoids(RecordHead(server), ':', c)
  {
    RootAvoids(server, c);
    assert Avoids("/registry/record/", ':', c);
    AvoidsConcat(ServerRoot(server), "/registry/record/", ':', c);
  }

  /**
   * `record.get({id: v})` substitutes `v` for `:id` and sends no query
   * parameter, unless `v` is the text ":id" itself: then the URI is unchanged
   * and `id` is sent as a query parameter.
   */
  lemma RecordById(server: string, v: string)
    requires HostName(server)
    ensures v != ":id" ==>
      PrepareSpec(RecordByIdUri(server), Keyed(["id"], map["id" := Str(v)]))
        == Prepared(RecordHead(server) + v, map[])
    ensures v == ":id" ==>
      PrepareSpec(RecordByIdUri(server), Keyed(["id"], map["id" := Str(v)]))
        == Prepared(RecordByIdUri(server), map["id" := Str(v)])
  {
    var s := RecordByIdUri(server);
    var values := map["id" := Str(v)];
    RecordHeadAvoids(server, 'i');
    FirstAfter(RecordHead(server), ":id", "", v);
    assert s + "" == s && RecordHead(server) + v + "" == RecordHead(server) + v;
    assert ["id"][..0] == [];
    assert Placeholder("id") == ":id";
    assert ToText(Get(values, "id")) == v;
    assert PrepareSpec(s, Keyed(["id"], values)) == Step(Prepared(s, map[]), "id", values);
  }

  /**
   * Matching is by substring: a key `i` matches the `:id` placeholder, and
   * its value replaces only the ":i" part.
   */
  lemma PrefixKeyMatches(server: string, v: string)
    requires HostName(server) && v != ":i"
    ensures PrepareSpec(RecordByIdUri(server), Keyed(["i"], map["i" := Str(v)]))
         == Prepared(RecordHead(server) + v + "d", map[])
  {
    var s := RecordByIdUri(server);
    var values := map["i" := Str(v)];
    RecordHeadAvoids(server, 'i');
    FirstAfter(RecordHead(server), ":i", "d", v);
    assert s == RecordHead(server) + ":i" + "d";
    assert ["i"][..0] == [];
    assert Placeholder("i") == ":i";
    assert ToText(Get(values, "i")) == v;
    assert PrepareSpec(s, Keyed(["i"], values)) == Step(Prepared(s, map[]), "i", values);
    IndexOfFirst(s, ":i");
    assert OccursAt(s, ":i", |RecordHead(server)|);
    ReplaceFirstUnchanged(s, ":i", v);
  }

  /** The loop visits the keys in order. */
  lemma PrepareSnoc(uri: string, keys: seq<string>, key: string, values: Fields)
    ensures PrepareKeys(uri, keys + [key], values) == Step(PrepareKeys(uri, keys, values), key, values)
  {
    assert (keys + [key])[..|keys|] == keys;
  }

  /** The text before `:issuer` in the avatar lookup template. */
  function AvatarHead(server: string): string
  {
    ServerRoot(server) + "/registry/record/_search?q=issuer:"
  }

  /** What follows `:category` in the avatar lookup template. */
  const AvatarTail := "&size=1&_source=pictures.src"

  lemma AvatarHeadAvoids(server: string, c: char)
    requires HostName(server) && 'a' <= c <= 'z'
    ensures Avoids(AvatarHead(server), ':', c)
  {
    RootAvoids(server, c);
    assert Avoids("/registry/record/_search?q=issuer:", ':', c);
    AvoidsConcat(ServerRoot(server), "/registry/record/_search?q=issuer:", ':', c);
  }

  /** What follows `:issuer` in the avatar lookup template. */
  const AvatarRest := "+category:" + ":category" + AvatarTail

  lemma AvatarUriPieces(server: string)
    ensures AvatarUri(server) == AvatarHead(server) + ":issuer" + AvatarRest
  {
  }

  /** The issuer is substituted into the one `:issuer` slot, whatever its text. */
  lemma AvatarIssuer(server: string, issuer: string)
    requires HostName(server)
    ensures ReplaceFirst(AvatarUri(server), ":issuer", issuer) == AvatarHead(server) + issuer + AvatarRest
  {
    AvatarHeadAvoids(server, 'i');
    AvatarUriPieces(server);
    FirstAfter(AvatarHead(server), ":issuer", AvatarRest, issuer);
  }

  /** With an issuer that cannot start `:category`, the category goes into its own slot. */
  lemma AvatarCategory(server: string, issuer: string, category: string)
    requires Avoids(AvatarHead(server) + issuer + "+category:", ':', 'c')
    ensures ReplaceFirst(AvatarHead(server) + issuer + AvatarRest, ":category", category)
         == AvatarHead(server) + issuer + "+category:" + category + AvatarTail
  {
    var a := AvatarHead(server) + issuer + "+category:";
    assert AvatarHead(server) + issuer + AvatarRest == a + ":category" + AvatarTail;
    FirstAfter(a, ":category", AvatarTail, category);
  }

  /** The parameters `{issuer: "pk1", category: "avatar", size: 5}`. */
  const AvatarValues: Fields := map["issuer" := Str("pk1"), "category" := Str("avatar"), "size" := Num(5)]

  /** The avatar URI once the category has been substituted as well. */
  function AvatarFilled(server: string): string
  {
    AvatarHead(server) + "pk1" + "+category:" + "avatar" + AvatarTail
  }

  lemma IssuerAvoids(server: string)
    requires HostName(server)
    ensures Avoids(AvatarHead(server) + "pk1" + "+category:", ':', 'c')
  {
    AvatarHeadAvoids(server, 'c');
    AvoidsConcat(AvatarHead(server), "pk1" + "+category:", ':', 'c');
    assert AvatarHead(server) + ("pk1" + "+category:") == AvatarHead(server) + "pk1" + "+category:";
  }

  lemma AvatarFilledAvoids(server: string)
    requires HostName(server)
    ensures Avoids(AvatarFilled(server), ':', 's')
  {
    var head := AvatarHead(server);
    AvatarHeadAvoids(server, 's');
    assert Avoids("pk1+category:avatar", ':', 's');
    assert Avoids(AvatarTail, ':', 's');
    AvoidsConcat("pk1+category:avatar", AvatarTail, ':', 's');
    AvoidsConcat(head, "pk1+category:avatar" + AvatarTail, ':', 's');
    assert head + ("pk1+category:avatar" + AvatarTail) == AvatarFilled(server);
  }

  lemma AvatarAfterIssuer(server: string)
    requires HostName(server)
    ensures PrepareKeys(AvatarUri(server), ["issuer"], AvatarValues)
         == Prepared(AvatarHead(server) + "pk1" + AvatarRest, map[])
  {
    assert ToText(Get(AvatarValues, "issuer")) == "pk1";
    assert Placeholder("issuer") == ":issuer";
    AvatarIssuer(server, "pk1");
    assert |AvatarHead(server) + "pk1" + AvatarRest| != |AvatarUri(server)|;
    PrepareSnoc(AvatarUri(server), [], "issuer", AvatarValues);
    assert [] + ["issuer"] == ["issuer"];
  }

  lemma AvatarAfterCategory(server: string)
    requires HostName(server)
    ensures PrepareKeys(AvatarUri(server), ["issuer", "category"], AvatarValues)
         == Prepared(AvatarFilled(server), map[])
  {
    var head := AvatarHead(server);
    var s1 := head + "pk1" + AvatarRest;
    AvatarAfterIssuer(server);
    assert ToText(Get(AvatarValues, "category")) == "avatar";
    assert Placeholder("category") == ":category";
    IssuerAvoids(server);
    AvatarCategory(server, "pk1", "avatar");
    assert |AvatarFilled(server)| != |s1|;
    PrepareSnoc(AvatarUri(server), ["issuer"], "category", AvatarValues);
    assert ["issuer"] + ["category"] == ["issuer", "category"];
  }

  /**
   * `record.avatar({issuer: "pk1", category: "avatar", size: 5})`: both
   * placeholders are substituted and only `size` is left for the query map
   * (the "size=1" already in the template is not a placeholder).
   */
  lemma AvatarLookup(server: string)
    requires HostName(server)
    ensures PrepareSpec(AvatarUri(server), Keyed(["issuer", "category", "size"], AvatarValues))
         == Prepared(AvatarFilled(server), map["size" := Num(5)])
  {
    var filled := AvatarFilled(server);
    AvatarAfterCategory(server);
    AvatarFilledAvoids(server);
    AbsentWhenAvoided(filled, ":size");
    assert Placeholder("size") == ":size";
    StepMisses(Prepared(filled, map[]), "size", AvatarValues);
    assert Get(AvatarValues, "size") == Num(5);
    PrepareSnoc(AvatarUri(server), ["issuer", "category"], "size", AvatarValues);
    assert ["issuer", "category"] + ["size"] == ["issuer", "category", "size"];
  }

  /**
   * Substitutions are not isolated from each other: an issuer whose text is
   * `:category` is itself matched by the next key, so the category lands in
   * the issuer slot and the real `:category` placeholder stays in the URI.
   */
  lemma IssuerTakesCategorySlot(server: string, category: string)
    requires HostName(server)
    ensures ReplaceFirst(ReplaceFirst(AvatarUri(server), ":issuer", ":category"), ":category", category)
         == AvatarHead(server) + category + AvatarRest
  {
    AvatarIssuer(server, ":category");
    AvatarHeadAvoids(server, 'c');
    FirstAfter(AvatarHead(server), ":category", AvatarRest, category);
  }
}
