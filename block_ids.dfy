/**
  * Namespaced block ids (`minecraft:oak_planks`) and the way the listener
  * reduces them to a simple name: `id.split(":")[1]` when the id starts with
  * the namespace, the id unchanged otherwise.
  */
module BlockIds {
  import opened Strings

  /** The namespace palette entries carry and the listener strips. */
  const Namespace: string := "minecraft:"

  /**
    * The listener's simple name of an id: the second colon-separated segment
    * when the id starts with the namespace, the id itself otherwise.
    */
  function SimpleName(id: string): (name: string)
    ensures Namespace <= id ==> ':' !in name
    ensures !(Namespace <= id) ==> name == id
  {
    if Namespace <= id then
      SplitAfterNamespace(id[|Namespace|..]);
      assert id == Namespace + id[|Namespace|..];
      Split(id, ':')[1]
    else
      id
  }

  /** Splitting a namespaced id: `minecraft`, then the parts of the text after the namespace. */
  lemma SplitAfterNamespace(rest: string)
    ensures Split(Namespace + rest, ':') == ["minecraft"] + Split(rest, ':')
  {
    var id := Namespace + rest;
    assert id[9] == ':';
    assert IndexOf(id, ':') == 9 by {
      var k := IndexOf(id, ':');
      assert id[..k] == Namespace[..k] || k >= 9;
    }
    assert id[..9] == "minecraft" && id[10..] == rest;
  }

  /**
    * For a namespaced id, the simple name is the text after the namespace up
    * to the next colon: the whole rest only when it contains no colon.
    */
  lemma SimpleNameOfNamespaced(rest: string)
    ensures SimpleName(Namespace + rest) == Split(rest, ':')[0]
    ensures SimpleName(Namespace + rest) == rest <==> ':' !in rest
    ensures ':' !in SimpleName(Namespace + rest)
    ensures |SimpleName(Namespace + rest)| <= |rest|
  {
    var id := Namespace + rest;
    assert Namespace <= id;
    SplitAfterNamespace(rest);
    var parts := Split(rest, ':');
    assert SimpleName(id) == parts[0];
    assert parts[0] <= rest;
  }

  /** The simple name of an id without the namespace is the id itself. */
  lemma SimpleNameOfPlain(id: string)
    requires !(Namespace <= id)
    ensures SimpleName(id) == id
  {
  }

  /** `split(":")[1]` keeps only the second segment: `minecraft:a:b` becomes `a`. */
  lemma SimpleNameDropsLaterSegments()
    ensures SimpleName("minecraft:a:b") == "a"
  {
    var rest := "a:b";
    assert "minecraft:a:b" == Namespace + rest;
    SimpleNameOfNamespaced(rest);
    assert Split(rest, ':')[0] == "a" by {
      assert rest[0] == 'a' && rest[1] == ':' && rest[1..][0] == ':';
      assert IndexOf(rest, ':') == 1;
      assert rest[..1] == "a";
    }
  }

  /**
    * The id the listener places for a requested block: the namespace in
    * front of the requested block's simple name.
    */
  function PlaceTarget(blockType: string): (target: string)
    ensures Namespace <= target
  {
    Namespace + SimpleName(blockType)
  }

  /**
    * An id without the namespace gets the namespace in front. A namespaced
    * id keeps only the text after the namespace up to the next colon, so it
    * is placed as itself exactly when that text has no colon.
    */
  lemma PlaceTargetCases(blockType: string)
    ensures !(Namespace <= blockType) ==> PlaceTarget(blockType) == Namespace + blockType
    ensures Namespace <= blockType ==>
              PlaceTarget(blockType) == Namespace + Split(blockType[|Namespace|..], ':')[0]
    ensures forall rest :: blockType == Namespace + rest && ':' !in rest ==> PlaceTarget(blockType) == blockType
    ensures forall rest :: blockType == Namespace + rest && ':' in rest ==> PlaceTarget(blockType) != blockType
  {
    if Namespace <= blockType {
      var rest := blockType[10..];
      assert blockType == Namespace + rest;
      SimpleNameOfNamespaced(rest);
    }
  }
}
