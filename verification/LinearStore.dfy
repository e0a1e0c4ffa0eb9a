/** The object that histories are checked against is the store itself, seen without versions and
    leases: reading, writing and erasing a key are the same operation in both. */
module LinearStore {
  import opened RaftTypes
  import opened ByteCodec
  import opened KeyOrder
  import opened StoreModel
  import opened StoreProofs
  import opened StoreMeaning
  import Object = LinearObject
  import Linear = LinearModel

  /** What the checker knows of a store. */
  function Image(d: Data): Linear.Model {
    Linear.Model(d.revision, map k | k in d.values :: Linear.Versioned(d.values[k].value, d.values[k].modified))
  }

  lemma PutCorresponds(d: Data, limits: Limits, key: Key, value: Bytes)
    requires DataInv(d, limits) && Run(d, limits, Put(key, value)).Done?
    ensures var r := Run(d, limits, Put(key, value));
      Linear.Perform(Image(d), Linear.Put(key, value)) == Some((Image(r.data), Linear.PutResult(r.answer.revision)))
  {
    PutIsMeant(d, limits, key, value);
    var r := Run(d, limits, Put(key, value));
    hide DataInv, StoreModel.Run, Released, SameCounters;
    var m, m', op, result := Image(d), Image(r.data), Linear.Put(key, value), Linear.PutResult(r.answer.revision);
    assert Object.Meant(m, op, m', result);
    Performs(m, op, m', result);
  }

  lemma EraseCorresponds(d: Data, limits: Limits, key: Key)
    requires DataInv(d, limits) && Run(d, limits, Erase(key)).Done?
    ensures var r := Run(d, limits, Erase(key));
      Linear.Perform(Image(d), Linear.Erase(key))
      == Some((Image(r.data), Linear.EraseResult(r.answer.previous.Some?, r.answer.revision)))
  {
    EraseIsMeant(d, limits, key);
    var r := Run(d, limits, Erase(key));
    hide DataInv, StoreModel.Run, Released, SameCounters, OthersKept, Linear.Perform, Object.Meant, Image;
    if key in d.values { ErasedImage(d, r.data, key); } else { NothingErased(d, key); }
    Performs(Image(d), Linear.Erase(key), Image(r.data),
             Linear.EraseResult(r.answer.previous.Some?, r.answer.revision));
  }

  lemma ErasedImage(d: Data, now: Data, key: Key)
    requires key in d.values && key !in now.values && OthersKept(d.values, now.values, key)
    requires d.revision != INT64_MAX && now.revision == d.revision + 1
    ensures Object.Meant(Image(d), Linear.Erase(key), Image(now), Linear.EraseResult(true, now.revision))
  {
  }

  lemma NothingErased(d: Data, key: Key)
    requires key !in d.values
    ensures Object.Meant(Image(d), Linear.Erase(key), Image(d), Linear.EraseResult(false, d.revision))
  {
  }

  lemma GetCorresponds(d: Data, limits: Limits, key: Key)
    requires Run(d, limits, Get(key)).Done?
    ensures var r := Run(d, limits, Get(key));
      && r.data == d
      && Linear.Perform(Image(d), Linear.Get(key))
         == Some((Image(d), Linear.GetResult(
                              if r.answer.value.None? then None
                              else Some(Linear.Versioned(r.answer.value.value.value, r.answer.value.value.modified)),
                              r.answer.revision)))
  {
    ReadsAreMeant(d, limits, key, 0, 0);
  }

  lemma Performs(m: Linear.Model, op: Linear.Operation, m': Linear.Model, result: Linear.Result)
    requires Object.Meant(m, op, m', result)
    ensures Linear.Perform(m, op) == Some((m', result))
  {
    Object.AppliesIff(m, op, result, m');
  }
}
