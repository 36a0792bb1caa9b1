/** The server-block migration: copy the org's legacy server block into exactly one new block. */
module ServerSpec {
  import opened Common
  import opened Query
  import opened Model

  /** When the org has a legacy server block, its first new server block carries the legacy id and name. */
  predicate ServerCopied(db: Db, org: Org) {
    var l := Find(db.legacyBlocks, LegacyBlockIs(org, AirbyteServer));
    var k := Find(db.blocks, BlockIs(org, AirbyteServer));
    l.Some? ==>
      && k.Some?
      && db.blocks[k.value].blockId == db.legacyBlocks[l.value].blockId
      && db.blocks[k.value].blockName == db.legacyBlocks[l.value].blockName
  }

  /** The server-block migration of one org. */
  function ServerMigrated(w: World, org: Org): (w': World)
    // no legacy server block: one failure, nothing else
    ensures Find(w.db.legacyBlocks, LegacyBlockIs(org, AirbyteServer)).None? ==>
              w' == Fail(w, ServerBlockNotFound(org.slug))
    // a legacy server block: the first new server block carries its id and name
    ensures Find(w.db.legacyBlocks, LegacyBlockIs(org, AirbyteServer)).Some? ==>
              var legacy := w.db.legacyBlocks[Find(w.db.legacyBlocks, LegacyBlockIs(org, AirbyteServer)).value];
              var k := Find(w'.db.blocks, BlockIs(org, AirbyteServer));
              var n := Count(w'.db.blocks, BlockIs(org, AirbyteServer));
              && k.Some?
              && w'.db.blocks[k.value].blockId == legacy.blockId
              && w'.db.blocks[k.value].blockName == legacy.blockName
              // created only when absent, otherwise updated in place
              && (Find(w.db.blocks, BlockIs(org, AirbyteServer)).None? ==>
                    w'.db.blocks == w.db.blocks + [w'.db.blocks[k.value]] && k.value == |w.db.blocks|)
              && (Find(w.db.blocks, BlockIs(org, AirbyteServer)).Some? ==>
                    k == Find(w.db.blocks, BlockIs(org, AirbyteServer)) &&
                    w'.db.blocks == w.db.blocks[k.value := w'.db.blocks[k.value]])
              // the count check always passes and reports the singleton count, duplicates included
              && n == (if Count(w.db.blocks, BlockIs(org, AirbyteServer)) == 0 then 1
                       else Count(w.db.blocks, BlockIs(org, AirbyteServer)))
              && w'.log == Succeed(w, FoundServerBlocks(n, org.slug)).log
    // only the block table changes
    ensures w'.db == w.db.(blocks := w'.db.blocks) && w'.remote == w.remote
    ensures ServerCopied(w'.db, org)
  {
    var l := Find(w.db.legacyBlocks, LegacyBlockIs(org, AirbyteServer));
    if l.None? then Fail(w, ServerBlockNotFound(org.slug))
    else
      var legacy := w.db.legacyBlocks[l.value];
      var existing := Find(w.db.blocks, BlockIs(org, AirbyteServer));
      var w1 :=
        if existing.None? then AddBlock(w, Block(org, AirbyteServer, legacy.blockId, legacy.blockName))
        else SetBlock(w, existing.value,
                      w.db.blocks[existing.value].(blockId := legacy.blockId, blockName := legacy.blockName));
      ServerCheckFacts(w, w1, org, legacy);
      var cnt := Count(w1.db.blocks, BlockIs(org, AirbyteServer));
      if cnt == 0 then Fail(w1, ZeroServerBlocks(org.slug))
      else Succeed(w1, FoundServerBlocks(cnt, org.slug))
  }

  /** What the create-or-update step leaves in the block table. */
  lemma ServerCheckFacts(w: World, w1: World, org: Org, legacy: LegacyBlock)
    requires var existing := Find(w.db.blocks, BlockIs(org, AirbyteServer));
             w1 == if existing.None? then AddBlock(w, Block(org, AirbyteServer, legacy.blockId, legacy.blockName))
                   else SetBlock(w, existing.value,
                                 w.db.blocks[existing.value].(blockId := legacy.blockId, blockName := legacy.blockName))
    ensures var existing := Find(w.db.blocks, BlockIs(org, AirbyteServer));
            && Find(w1.db.blocks, BlockIs(org, AirbyteServer)) ==
                 (if existing.None? then Some(|w.db.blocks|) else existing)
            && Count(w1.db.blocks, BlockIs(org, AirbyteServer)) ==
                 (if existing.None? then 1 else Count(w.db.blocks, BlockIs(org, AirbyteServer)))
  {
    var p := BlockIs(org, AirbyteServer);
    var existing := Find(w.db.blocks, p);
    if existing.None? {
      var b := Block(org, AirbyteServer, legacy.blockId, legacy.blockName);
      FindAppend(w.db.blocks, b, p);
      CountAppend(w.db.blocks, b, p);
    } else {
      var i := existing.value;
      UpdateKeepsPattern(w.db.blocks, i, w.db.blocks[i].(blockId := legacy.blockId, blockName := legacy.blockName), p);
      assert Count(w.db.blocks, p) != 0;
    }
  }

  /** A store whose server block is already the legacy block's copy is left as it is. */
  lemma ServerStable(w: World, org: Org)
    requires ServerCopied(w.db, org)
    ensures ServerMigrated(w, org).db == w.db
  {
    var w1 := ServerMigrated(w, org);
    var p := BlockIs(org, AirbyteServer);
    var l := Find(w.db.legacyBlocks, LegacyBlockIs(org, AirbyteServer));
    if l.Some? {
      var legacy := w.db.legacyBlocks[l.value];
      var k := Find(w.db.blocks, p).value;
      assert Find(w1.db.blocks, p) == Some(k);
      var b, b1 := w.db.blocks[k], w1.db.blocks[k];
      assert p(b) && p(b1);
      assert b.blockId == legacy.blockId == b1.blockId;
      assert b.blockName == legacy.blockName == b1.blockName;
      assert b == b1;
      assert w1.db.blocks == w.db.blocks[k := b] == w.db.blocks;
    }
  }

  /** A second run changes no record: the block found is already the legacy block's copy. */
  lemma ServerRerunKeepsStore(w: World, org: Org)
    ensures ServerMigrated(ServerMigrated(w, org), org).db == ServerMigrated(w, org).db
  {
    ServerStable(ServerMigrated(w, org), org);
  }
}
