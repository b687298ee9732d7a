/** What `resolveOrCreate` does under its lock, whatever names the owners: find the key, or give it the new owner. */
module Owners {

  datatype Found = Found(ownerId: string, created: bool)

  function Locked<K>(known: map<K, string>, key: K, newOwner: string): (map<K, string>, Found)
  {
    if key in known then (known, Found(known[key], false)) else (known[key := newOwner], Found(newOwner, true))
  }

  datatype Pair = Pair(issuer: string, subject: string)
}
