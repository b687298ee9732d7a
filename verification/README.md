# Authority, exchange and secret sharing

A Dafny model of three parts of the repository and of the two small codecs that go with them, with
proofs of what they promise.

- Secret sharing over GF(256) (`Bits`, `Field`, `Generator`, `Powers`, `Polynomials`,
  `Interpolation`, `Base64Url`, `Shamir`): the logarithm tables, sharing and recovery as the code
  runs them on arrays, against a field that knows no tables.
- The authority service (`JsValues`, `AuthorityTypes`, `Policy`, `Claims`, `Tokens`, `Grants`,
  `IsoDates`, `AuthorityStore`, `Lanes`, `AuthorityMachine`, `AuthorityFrames`, `AuthorityLanes`,
  `AuthorityInvariant`, `AuthorityKeeps`, `AuthoritySteps`, `AuthorityRuns`, `AuthorityOrigins`,
  `AuthorityProvenance`, `AuthorityStages`, `AuthorityAlone`, `AuthorityPromises`, `AuthorityService`;
  `PolicyRulings`, `TokenAcceptance` and `GrantRules` say what the code decides without its functions).
  `AuthorityMachine` lets any number of calls interleave, one store call a step; clock readings, new
  identifiers, failures and the choice among several fitting grants are labels of the steps, so a run
  is a list of labels. `AuthorityRuns` states what holds in every run, `AuthorityProvenance` who asked for
  what was done and with which token, and `AuthorityAlone` the whole result of each operation when no other
  call moves. `AuthorityService` is the class itself, each method the code between two awaits; it carries
  the run it has made, so that the theorems on runs are theorems on the object. The machine's lanes are
  queues: `Lanes` shows that the promise chains of `enqueue` and `withLock` are queues, and
  `AuthorityPromises` that the service over such chains has the machine's runs. `IsoDates` is
  `toISOString` and the order of the texts it writes.
- The TrustID exchange (`Owners`, `MemoryStores`, `PostgresStores`, `ExchangeMachine`,
  `ExchangeInvariant`, `ExchangeKeeps`, `ExchangeCommits`, `ExchangeRuns`, `ExchangeAnswers`,
  `ExchangeAlone`): the memory stores as classes, one connection statement by statement, and concurrent
  transactions with uncommitted rows, unique keys that make an INSERT wait, rollback anywhere and commits
  whose caller is not told. `ExchangeAnswers` says what callers are told, `ExchangeAlone` what an exchange
  comes to when no other transaction is open.
- The TrustID codec (`Positional`, `TrustId`) and the DDI resource grammar (in `Policy`).

`dafny verify dfyconfig.toml` checks the whole project.

## Reading the model

A string of bytes is `seq<Byte>`, JavaScript text is `string` taken code unit by code unit, numbers
that can be NaN or infinite are `Number`, and dates that can be invalid are `Date`. Random bytes,
new identifiers, clock readings and policies are parameters. Signatures are ideal: the only payload
that verifies under a key is one that key signed. A token is not required to have been issued in the
run: whatever claims the key's holder has signed elsewhere, the theorems on uses hold of them as well.

`Enabled` says which steps a state allows, `Do` (for the service: `Apply` of an `Effect`) what a step
does, `Legal` which lists of steps are runs, and `After` where a run leads. `History` and `resolved`
keep what runs are judged by; the code has no such fields.

## Where the code does not do what one might expect

- The consumers' verifier trims the token before it parses it and the service's verifier does not.
  Whitespace before a token separates them for certain, since it changes the text that is signed;
  whitespace after it does so exactly if the base64url decoding of the signature does not skip it,
  which is a parameter here (`Tokens.VerifiersAgree`, `Tokens.PaddedTokenDisagrees`).
- The SQLite store compares dates as the texts of `toISOString`. Those of the years 0 to 9999 are in
  time order, but from year 10000 on they begin with a plus sign, which sorts before every digit: a
  grant approved with a `ttlMs` that long is reserved by the memory store and never by SQLite
  (`IsoDates.TextOrderIsTimeOrder`, `StoreSteps.SqliteRefinesMemory`, `StoreSteps.SqliteLosesFarGrants`).
- The Postgres `reserveUse` takes version and bound as four-byte integers and counts in four bytes.
  Beyond that it throws, where the memory store reserves or refuses (`StoreSteps.PostgresRefinesMemory`,
  `StoreSteps.PostgresThrows`).
- The last test of `authorizeAuthority`, that the grant and token used are those verified, can refuse
  nothing when its client calls `useToken` of this service (`AuthorityRuns.BindingNeverRefuses`).
- Base64url decoding ignores the spare low bits of the last letter, so several texts decode alike
  (`Base64Url.EncodeDecode`).
- The memory owner store joins issuer and subject with NUL; a NUL in either lets two pairs share a key
  and so an owner (`MemoryStores.KeyIsUnique`, `MemoryStores.NulMergesOwners`).
- Without `runWrite` an exchange that fails after its first store call has spent its assertion
  (`ExchangeRuns.UnjoinedSpendsForNothing`).
- A policy that allows with step-up yields grants whose conditions `useToken` always refuses, so
  nothing under such a policy is ever used (a consequence of `AuthorityRuns.UseIsFounded`).
- The second loop of `assertDelegationSubset` over the limits cannot refuse what the first let pass
  (`Policy.ContainedMeans`).

## Model

| member | source | states |
|---|---|---|
| `Field.TimesIsCongruent` | packages/sovereign-crypto/src/shamir.ts:12-19 | the product with every step folded by 0x11d is the carry-less product up to a multiple of 0x11d |
| `Field.RemainderIsUnique` | packages/sovereign-crypto/src/shamir.ts:12-19 | and no other byte is: reduction modulo 0x11d has one result |
| `Generator.OrderOfTwo` | packages/sovereign-crypto/src/shamir.ts:12-20 | 255 doublings bring 1 back to 1, and 15, 51 or 85 do not, so the order of 2 is exactly 255 |
| `Powers.EveryByteIsAPower` | packages/sovereign-crypto/src/shamir.ts:12-20 | every non-zero byte is one of the 255 powers the loop visits |
| `Powers.TimesCommutes` | packages/sovereign-crypto/src/shamir.ts:24-27 | the field product commutes |
| `Powers.TimesAssociates` | packages/sovereign-crypto/src/shamir.ts:24-27 | the field product associates |
| `Powers.Distributes` | packages/sovereign-crypto/src/shamir.ts:24-27 | the field product distributes over exclusive or |
| `Powers.NoZeroDivisors` | packages/sovereign-crypto/src/shamir.ts:24-27 | a product is zero only if a factor is |
| `Powers.TimesCancels` | packages/sovereign-crypto/src/shamir.ts:29-33 | a non-zero factor cancels, so quotients are unique |
| `Shamir.InitTables` | packages/sovereign-crypto/src/shamir.ts:11-22 | the loop leaves EXP[k] the k-th power of 2 and LOG its inverse |
| `Shamir.Tables.constructor` | packages/sovereign-crypto/src/shamir.ts:8-22 | tables filled by that loop are valid |
| `Shamir.Tables.Bijection` | packages/sovereign-crypto/src/shamir.ts:11-22 | EXP and LOG are inverse bijections between 0..254 and the non-zero bytes |
| `Shamir.Tables.GfMul` | packages/sovereign-crypto/src/shamir.ts:24-27 | the table product is the field product, zero included |
| `Shamir.Tables.GfDiv` | packages/sovereign-crypto/src/shamir.ts:29-33 | the table quotient times the divisor is the dividend; it fails exactly on a zero divisor |
| `Polynomials.EvalIsPowerSum` | packages/sovereign-crypto/src/shamir.ts:35-41 | the value Horner's rule gives is the sum of coefficient times power |
| `Shamir.Tables.EvalPoly` | packages/sovereign-crypto/src/shamir.ts:35-41 | the loop from the highest coefficient down evaluates the polynomial |
| `Polynomials.TooManyRoots` | packages/sovereign-crypto/src/shamir.ts:80-112 | a polynomial with as many roots as coefficients is zero |
| `Polynomials.AgreeingPolys` | packages/sovereign-crypto/src/shamir.ts:80-112 | polynomials agreeing at as many points as they have coefficients are equal |
| `Interpolation.LagrangeRecovers` | packages/sovereign-crypto/src/shamir.ts:95-108 | the sum the recovery loops compute is the constant coefficient of any polynomial that fits and is no longer than the points |
| `Interpolation.OnePointShort` | packages/sovereign-crypto/src/shamir.ts:64-71 | through one point fewer than coefficients, each secret byte has exactly one choice of the others |
| `Shamir.Tables.DrawCoefficients` | packages/sovereign-crypto/src/shamir.ts:64-68 | the secret byte at the bottom, fresh bytes above it |
| `Shamir.Tables.SplitSecret` | packages/sovereign-crypto/src/shamir.ts:48-78 | the shares are the values of each byte's polynomial at 1..n, encoded; or the error, in the order of the checks |
| `Shamir.SplitMeans` | packages/sovereign-crypto/src/shamir.ts:48-61 | a secret is shared exactly if it is not empty and 2 <= threshold <= shareCount <= 255; otherwise the error names the first of these faults |
| `Shamir.Tables.InterpolateAtZero` | packages/sovereign-crypto/src/shamir.ts:95-108 | the double loop computes the Lagrange sum at 0 and never divides by zero for distinct indexes |
| `Shamir.Tables.Rebuild` | packages/sovereign-crypto/src/shamir.ts:93-111 | one interpolation for each byte of the secret |
| `Shamir.Tables.CombineShares` | packages/sovereign-crypto/src/shamir.ts:80-112 | the bytes interpolated from the decoded shares, or the error of the first check that fails |
| `Shamir.CombineMeans` | packages/sovereign-crypto/src/shamir.ts:80-91 | shares are combined exactly if there are two at least, all texts decode to equally many bytes and the indexes are different and in 1..255; otherwise the error is that of the first fault in this order |
| `Shamir.Recovery` | packages/sovereign-crypto/src/shamir.ts:48-112 | any threshold or more distinct shares of a split, in any order, combine to exactly the secret, for every draw of coefficients |
| `Shamir.Secrecy` | packages/sovereign-crypto/src/shamir.ts:35-78 | threshold - 1 shares fit every other secret of the same length as well |
| `Shamir.OneExplanation` | packages/sovereign-crypto/src/shamir.ts:35-78 | and for each such secret one draw of the coefficients only |
| `Base64Url.EncodedIsUnpadded` | packages/sovereign-crypto/src/encoding.ts:3-14 | url letters only, no padding, and never a length of 1 modulo 4 |
| `Base64Url.DecodeEncode` | packages/sovereign-crypto/src/encoding.ts:3-26 | decoding undoes encoding for every byte string, on both platforms |
| `Base64Url.PlatformsAgree` | packages/sovereign-crypto/src/encoding.ts:16-26 | on url letters of a possible length Buffer and atob give the same bytes; at length 1 modulo 4 atob throws |
| `Base64Url.EncodeDecode` | packages/sovereign-crypto/src/encoding.ts:3-26 | encoding undoes decoding exactly for texts whose spare low bits are zero |
| `Base64Url.BytesToBase64Url` | packages/sovereign-crypto/src/encoding.ts:3-14 | both branches, the btoa loop included, return the same text |
| `Base64Url.Base64UrlToBytes` | packages/sovereign-crypto/src/encoding.ts:16-26 | both branches, the atob loop included, return the decoded bytes or the error |
| `TrustId.GenerateTrustId` | packages/shared/src/index.ts:344-358 | the two loops compute the identifier of the first five bytes, or refuse fewer |
| `TrustId.IdKeepsBytes` | packages/shared/src/index.ts:344-362 | every identifier made is valid and determines its five bytes |
| `TrustId.BytesKeepId` | packages/shared/src/index.ts:344-362 | every valid identifier is made from some five bytes |
| `Policy.BindingIsGrammar` | packages/digi-authority/src/policy.ts:30-41 | the binding test accepts exactly ddi:pdi: + id + : + action for a non-empty id without a colon at either end and an action in the capability grammar |
| `Policy.BindingIsUnique` | packages/digi-authority/src/policy.ts:30-41 | one resource binds one id and one action, whatever colons the id holds |
| `Policy.ContainedMeans` | packages/digi-authority/src/policy.ts:199-252 | what the delegation check comes down to; its second loop over the limits refuses nothing more |
| `Policy.ContainedComposes` | packages/digi-authority/src/policy.ts:199-252 | the delegation check is transitive |
| `Policy.ChainContained` | packages/digi-authority/src/policy.ts:199-252 | along a chain of any length the leaf is contained in the root |
| `Policy.UsageContained` | packages/digi-authority/src/policy.ts:199-271 | a usage the leaf's limits permit, the root's permit too |
| `PolicyRulings.DecideMeans` | packages/digi-authority/src/policy.ts:146-196 | the match is the ruling: of the first policy for this very actor and the audience, else of the first wildcard, the first rule that covers the scope gives decision, limits, step-up and single use; without a rule the default with nothing else; without a policy DENY; and nothing else is a ruling |
| `PolicyRulings.RulingIsOne` | packages/digi-authority/src/policy.ts:146-196 | policies give a scope one ruling |
| `PolicyRulings.ConsequenceMeans` | packages/digi-authority/src/policy.ts:119-136 | which actions are critical, high and medium, by prefixes and by where a text occurs in them |
| `PolicyRulings.ProductionRules` | packages/digi-authority/src/policy.ts:47-68 | in production the owner is asked for exactly the scopes of applications at ddi whose resource is bound to the action, and every other scope is denied |
| `Claims.PayloadKeepsClaims` | packages/shared/src/authority-claims.ts:2-17 | claims of the wire shape come back as they were sent, with a lifetime of at most 300 seconds |
| `TokenAcceptance.ShapeMeans` | packages/shared/src/authority-claims.ts:2-17 | the wire predicate accepts exactly the payloads of well-formed claims: trimmed names, an actor of six types, lists without doubles, safe seconds, a lifetime of 1 to 300, counts that are not negative |
| `TokenAcceptance.PayloadIsClaims` | packages/shared/src/authority-claims.ts:2-17 | and a payload it accepts holds nothing but its claims |
| `TokenAcceptance.ServiceAccepts` | packages/digi-authority/src/tokens.ts:127-218 | the service accepts a token for claims exactly if nothing stands before it, its header says EdDSA, the first key with its kid has signed header and payload, these are well-formed claims of the issuer for the audience within iat, nbf and exp, and they say what was expected; both directions, said of keys and signatures |
| `TokenAcceptance.ConsumerAccepts` | packages/authority-verifier/src/index.ts:110-215 | the same for the consumers' verifier, with its trimming, its owner and its expectations as they stand |
| `TokenAcceptance.ServiceNamesMismatch` | packages/digi-authority/src/tokens.ts:180-196 | of an otherwise accepted token the first mismatch is named: actor, action, resource |
| `TokenAcceptance.ConsumerNamesMismatch` | packages/authority-verifier/src/index.ts:189-213 | of an otherwise accepted token the first mismatch is named: owner, actor, action, resource |
| `TokenAcceptance.MintMeans` | packages/digi-authority/src/tokens.ts:48-103 | minting succeeds exactly for 1 to 300 whole seconds and well-formed claims, and signs those claims under the key's kid |
| `TokenAcceptance.MintNeedsSeconds` | packages/digi-authority/src/tokens.ts:48-55 | for a lifetime that is no whole number nothing is minted |
| `TokenAcceptance.ActorKeyIsOwn` | packages/digi-authority/src/service.ts:608-609 | different actors have different texts in a token |
| `Tokens.VerifiersAgree` | packages/authority-verifier/src/index.ts:110-215 | with the same keys and definite expectations the service's verifier accepts exactly the tokens the consumers' verifier accepts that have nothing before them and after them only blanks that the signature's decoding skips, whatever those are; with the same claims but for the TrustID |
| `Tokens.ConsumerMatches` | packages/authority-verifier/src/index.ts:110-215 | what a consumer has verified is what it expected, of the owner it named, and the claims the token carries |
| `Tokens.VerifiedMatches` | packages/digi-authority/src/tokens.ts:127-218 | what the caller expected and did not leave empty is what the accepted claims say, and they are the claims the token carries |
| `Tokens.MintedVerifies` | packages/digi-authority/src/tokens.ts:48-218 | a minted token is accepted exactly while it is in force and for the audience, actor, action and resource it names; then both verifiers return its claims |
| `Tokens.MintedWindow` | packages/digi-authority/src/tokens.ts:48-218 | without skew or tolerance that is the seconds from iat up to and without exp |
| `Tokens.PaddedTokenDisagrees` | packages/authority-verifier/src/index.ts:110-140 | a token in force between any blanks is accepted by the consumers' verifier, and by the service's exactly if nothing stands before it and its signature decoding skips what stands after it |
| `Grants.LeastCount` | packages/digi-authority/src/service.ts:647-648 | the budget passed to the store is the least count, and none exactly when there are no limits |
| `Grants.LimitsAreOneBudget` | packages/digi-authority/src/service.ts:615-648 | on usable limits the early test and the budget of the atomic step ask the same question |
| `Grants.IssuedWithinGrant` | packages/digi-authority/src/service.ts:519-558 | a token issued from a grant stays inside it: subsets, equal owner, actor, audience and version, a lifetime of 1 to 300 seconds, and an end no later than the grant's plus the seconds between the two clock readings |
| `Grants.IssuedEndsWithGrant` | packages/digi-authority/src/service.ts:539-541 | with both readings in one second the token ends no later than its grant |
| `GrantRules.ExceededMeans` | packages/digi-authority/src/policy.ts:254-271 | the early test passes exactly if no count limit is reached, and else names the first that is |
| `GrantRules.RefusalMeans` | packages/digi-authority/src/service.ts:601-627 | useToken goes on from a grant exactly if it is active and live, of the same version, owner, actor and audience, has action and resource, is approved, has no condition, no parent, and every limit is a whole count of uses above its usage |
| `GrantRules.RefusalIsFirst` | packages/digi-authority/src/service.ts:601-627 | else the reason is a fault of the grant and no fault earlier in the list applies |
| `GrantRules.PlanMeans` | packages/digi-authority/src/service.ts:468-505 | issueToken goes on exactly for the owner of a live grant that does not end in this second, a scope within it that is not empty, a lifetime of whole seconds up to the service's, and no limit reached |
| `GrantRules.IssueRefusalIsFirst` | packages/digi-authority/src/service.ts:468-505 | else the reason is a fault and no earlier one applies |
| `GrantRules.IssueMeans` | packages/digi-authority/src/service.ts:519-558 | the token lasts the least of what is wanted, 300 seconds and the rest of the grant; it is issued exactly if that is a second at least and its claims are well-formed, and they are the grant's |
| `MemoryStore.MemoryAuthorityStore.constructor` | packages/digi-authority/src/stores.ts:114-118 | the store starts empty |
| `MemoryStore.MemoryAuthorityStore.ReserveUse` | packages/digi-authority/src/stores.ts:120-127 | the in-place update is the reservation step, and false leaves everything as it was |
| `MemoryStore.MemoryAuthorityStore.CreateGrant` | packages/digi-authority/src/stores.ts:129-136 | the grant is stored under its id |
| `MemoryStore.MemoryAuthorityStore.GetGrant` | packages/digi-authority/src/stores.ts:138-149 | the grant as stored, or nothing |
| `MemoryStore.MemoryAuthorityStore.UpdateGrantStatus` | packages/digi-authority/src/stores.ts:163-173 | status and, if given, revocation date change, and only of a known grant |
| `MemoryStore.MemoryAuthorityStore.CreateRequest` | packages/digi-authority/src/stores.ts:182-201 | the request is stored under its id |
| `MemoryStore.MemoryAuthorityStore.GetRequest` | packages/digi-authority/src/stores.ts:203-206 | the request as stored, or nothing |
| `MemoryStore.MemoryAuthorityStore.ResolveRequest` | packages/digi-authority/src/stores.ts:214-225 | status, grant and resolution date of a known request change, nothing else |
| `MemoryStore.MemoryAuthorityStore.TryConsumeJti` | packages/digi-authority/src/stores.ts:227-231 | true exactly for the first call with a jti |
| `IsoDates.TextIs` | packages/digi-authority/src/sqlite-store.ts:173-180 | the text of a date is its year, month, day, hour, minute, second and thousandth between their signs |
| `IsoDates.TextOrderIsTimeOrder` | packages/digi-authority/src/sqlite-store.ts:173-180 | of all dates JavaScript has, the texts of toISOString compare as the times do, except a year from 10000 on beside an earlier one and two different years before 0: those compare the other way round |
| `StoreSteps.SqliteRefinesMemory` | packages/digi-authority/src/sqlite-store.ts:173-180 | for every table, clock and call the one UPDATE statement takes the memory store's step, same rows and one changed row for true, exactly unless the row is open and its dates and the clock are such a pair of years |
| `StoreSteps.SqliteLosesFarGrants` | packages/digi-authority/src/sqlite-store.ts:173-180 | with the clock and the beginning of grants in years 0 to 9999 the two differ on exactly the reservations of grants that end later: the memory store makes them, SQLite never |
| `StoreSteps.SqliteLosesSample` | packages/digi-authority/src/sqlite-store.ts:173-180 | such a grant: it ends at 300000000000000 ms |
| `StoreSteps.PostgresRefinesMemory` | packages/digi-authority/src/postgres-store.ts:284-294 | the Postgres statement returns what the memory store does exactly if version and bound are four-byte integers and it is not a reservation without bound of a grant whose count is at the largest of them; else it throws |
| `StoreSteps.PostgresThrows` | packages/digi-authority/src/postgres-store.ts:284-294 | a usable limit and a version, both 3000000000, for which only Postgres throws |
| `StoreSteps.InsertRefinesMemory` | packages/digi-authority/src/postgres-store.ts:354-367 | the INSERT with its primary key answers as the memory store does |
| `Lanes.InOrder` | packages/digi-authority/src/service.ts:91-96 | tasks with one key begin in submission order and never overlap |
| `Lanes.HeadMoves` | packages/digi-authority/src/service.ts:91-96 | the first unsettled task of a key runs, may start, or waits for one enabled relay, whether its predecessor succeeded or failed |
| `Lanes.LaneIsQueue` | packages/digi-authority/src/service.ts:91-96 | the promise chains are queues: submission appends, only the head starts, settling removes the head, and no step touches another key |
| `AuthorityPromises.ChainsRefineLanes` | packages/digi-authority/src/service.ts:91-96 | every run of the service whose calls wait for the promises of enqueue is a run of the machine with queues, leading to the same state |
| `AuthorityPromises.LanesRefineChains` | packages/digi-authority/src/service.ts:91-96 | and what the queues let happen the promises let happen, at once or after one of them has resolved |
| `AuthorityPromises.ResolvedByOneOnChains` | packages/digi-authority/src/service.ts:324-441 | so over promises too each request is resolved by one call at most |
| `AuthorityLanes.OneRuns` | packages/digi-authority/src/service.ts:324-441 | at most one call past its queue per request |
| `AuthorityLanes.LanesKept` | packages/digi-authority/src/service.ts:91-96 | every step keeps the lanes queues of distinct calls of which only the first may be past the queue |
| `AuthorityKeeps.StepKeeps` | packages/digi-authority/src/service.ts:153-670 | a step that does what it owes keeps the whole invariant of the service |
| `AuthoritySteps.StepOwes` | packages/digi-authority/src/service.ts:153-670 | every enabled step of every call does |
| `AuthorityRuns.InvHolds` | packages/digi-authority/src/service.ts:153-670 | so the invariant holds in every run from the empty store |
| `AuthorityRuns.OneTimeOnce` | packages/digi-authority/src/service.ts:629-649 | in every interleaving at most one useToken takes a one-time grant, hence at most one returns ok and at most one authorizeAuthority built on them succeeds |
| `AuthorityRuns.CountIsUses` | packages/digi-authority/src/stores.ts:120-127 | in every run a grant's usageCount is the number of successful reservations and is at most each of its count limits, whatever stale copies the early tests saw |
| `AuthorityRuns.UseIsFounded` | packages/digi-authority/src/service.ts:153-412 | every use is for an actor the owner is not, and for a scope that the ruling of the policies, said by positions, allows without step-up and on whose terms the grant is, or leaves to the owner and that owner approved; a denied scope is never used |
| `AuthorityRuns.AnswersAreFounded` | packages/digi-authority/src/service.ts:153-306 | every answer of check is what that ruling says, tested in the order owner boundary, step-up, denial; the grant or request it names covers what was asked |
| `AuthorityRuns.IssuedIsWithin` | packages/digi-authority/src/service.ts:468-558 | every token issued in a run stays inside its grant as stored |
| `AuthorityRuns.AuthorizedIsUsed` | packages/authority-verifier/src/index.ts:248-265 | in every run, whatever keys and clocks its hosts verify with, authorizeAuthority returns claims that say what was asked, and only after a use of the very grant they name, which belongs to their owner |
| `AuthorityRuns.BoundOrNothing` | packages/authority-verifier/src/index.ts:258-261 | in any state at all, claims are returned exactly if the grant and jti that come back are theirs |
| `AuthorityRuns.BindingNeverRefuses` | packages/authority-verifier/src/index.ts:258-261 | its last test refuses nothing: grant and jti that come back are those verified before |
| `AuthorityRuns.StatusIsMonotone` | packages/digi-authority/src/service.ts:443-466 | from any moment of a run on, grants keep their terms, statuses only go from ACTIVE to CONSUMED to REVOKED, and resolved requests stay as they are |
| `AuthorityRuns.RevokedStaysUnused` | packages/digi-authority/src/service.ts:601-649 | once a revocation is written no later reservation of that grant succeeds, even of a call that read it as live before |
| `AuthorityRuns.ResolvedByOne` | packages/digi-authority/src/service.ts:324-441 | each request is resolved by one call at most, so at most one approve or deny of it returns ok |
| `Grants.IssuedCarries` | packages/digi-authority/src/service.ts:519-558 | the text issued carries the claims it was made of |
| `AuthorityRuns.OneGrantPerRequest` | packages/digi-authority/src/service.ts:335-412 | at most one grant is made for a request, but for grants of approvals that a failing store call cut off |
| `AuthorityRuns.NoOrphans` | packages/digi-authority/src/service.ts:335-412 | without failing store calls there are none of those |
| `AuthorityRuns.SettlingFreesNext` | packages/digi-authority/src/service.ts:91-96 | when a call settles, well or badly, the next one on its request may start |
| `AuthorityOrigins.StepTraced` | packages/digi-authority/src/service.ts:153-670 | every enabled step keeps the record of who asked for what and which token was shown in step with the store |
| `AuthorityProvenance.UseIsSigned` | packages/digi-authority/src/service.ts:574-649 | every use in a run was made with a token whose header says EdDSA and that the service's key has signed, in force when it was verified, of claims that name the grant used, its owner, actor, audience and version and cover what was expected |
| `AuthorityProvenance.AuthorizedIsSigned` | packages/authority-verifier/src/index.ts:248-265 | what authorizeAuthority has returned are the claims, but for the TrustID, of a token that key has signed |
| `AuthorityProvenance.CallersAreAsked` | packages/digi-authority/src/service.ts:324-517 | the owner on record for a call is the one it was made with |
| `AuthorityProvenance.IssuedToOwner` | packages/digi-authority/src/service.ts:335-558 | every token was issued to the owner of its grant: who asked for it, or approved it, is its subject and the stored grant's owner |
| `AuthorityProvenance.ResolvedByOwner` | packages/digi-authority/src/service.ts:335-441 | whoever approves or denies a request is its owner |
| `AuthorityProvenance.RevokedByOwner` | packages/digi-authority/src/service.ts:443-466 | every grant whose revocation is written was revoked by its owner |
| `AuthorityProvenance.ApprovedOnTerms` | packages/digi-authority/src/service.ts:343-396 | an approved grant is for one use and an hour from its approval unless its owner said otherwise, and never for a critical payment.approve asked for without step-up |
| `AuthorityProvenance.RequestIsRuled` | packages/digi-authority/src/service.ts:214-227 | every request is of a scope the ruling leaves to the owner, and carries its consequence |
| `AuthorityProvenance.OverLimitIsReached` | packages/digi-authority/src/service.ts:271-281 | a limit named as exceeded is reached by a stored grant that covers what was asked |
| `AuthorityProvenance.ProductionUses` | packages/digi-authority/src/policy.ts:47-68 | with the production policies every use is of an application's bound scope at ddi that its owner approved |
| `AuthorityProvenance.ProductionAnswers` | packages/digi-authority/src/policy.ts:47-68 | and check asks for exactly those scopes, denies every other, and allows nothing by itself |
| `AuthorityAlone.CheckDenied` | packages/digi-authority/src/service.ts:153-212 | undisturbed, check answers a refusal with the first reason that applies and writes nothing |
| `AuthorityAlone.CheckAsks` | packages/digi-authority/src/service.ts:214-236 | it creates the pending request of exactly the scope asked for, with the ruling's consequence, and answers with it |
| `AuthorityAlone.CheckReuses` | packages/digi-authority/src/service.ts:238-247 | while a live grant suits, none is created |
| `AuthorityAlone.CheckAllows` | packages/digi-authority/src/service.ts:238-305 | it answers from that grant: the first limit it has reached, or that it allows, with limits if the ruling says so |
| `AuthorityAlone.CheckCreates` | packages/digi-authority/src/service.ts:249-305 | and if none suits from a new one, on the ruling's terms and for seven days |
| `AuthorityAlone.ApproveAlone` | packages/digi-authority/src/service.ts:335-412 | an approval of the owner's pending request creates the grant, sets the request active with it, and returns ok with the whole grant's token exactly if the token lasts a second and is well-formed; this is all it changes |
| `AuthorityAlone.ApproveRefused` | packages/digi-authority/src/service.ts:335-362 | a request that is missing, another's or decided, or the actor's own, is left as it is |
| `AuthorityAlone.ApproveShortOfStepUp` | packages/digi-authority/src/service.ts:363-375 | approving a critical payment asked for without step-up denies it, and makes no grant |
| `AuthorityAlone.DenyAlone` | packages/digi-authority/src/service.ts:414-441 | the owner's denial of a pending request is written, anyone else's is not |
| `AuthorityAlone.RevokeAlone` | packages/digi-authority/src/service.ts:443-466 | the owner's revocation of a grant not revoked yet is written with its date, anyone else's is not |
| `AuthorityAlone.IssueAlone` | packages/digi-authority/src/service.ts:468-558 | the owner of a live grant is issued exactly the scope and lifetime wanted, cut to 300 seconds and the grant's end |
| `AuthorityAlone.IssueRefused` | packages/digi-authority/src/service.ts:468-505 | anyone else, and the owner of a grant that does not allow it, is issued nothing |
| `AuthorityAlone.UndisturbedUseSucceeds` | packages/digi-authority/src/service.ts:564-670 | a signed token in force, for a live grant that is bound to it, approved and has uses left, is used, at whatever later moment of the grant's life; the count goes up by one, and with a single use the grant is consumed and the token spent; nothing else changes |
| `AuthorityAlone.UseRefused` | packages/digi-authority/src/service.ts:574-627 | a token that is not accepted, or whose grant may not be used so, changes nothing |
| `AuthorityAlone.SpentUseFails` | packages/digi-authority/src/service.ts:629-645 | nor does a single-use token that is spent |
| `AuthorityAlone.AuthorizeAlone` | packages/authority-verifier/src/index.ts:248-265 | authorizeAuthority over that use returns the claims it has verified |
| `AuthorityAlone.CutOff` | packages/digi-authority/src/service.ts:91-96 | a call whose store call throws ends without an answer and leaves store and record as they are |
| `AuthorityAlone.ApprovedIsUsable` | packages/digi-authority/src/service.ts:335-670 | asked for, approved and used: the token an approval returns is accepted and used as expected for as long as it and the grant last, and a grant for one use is consumed by it |
| `AuthorityService.Service.constructor` | packages/digi-authority/src/service.ts:56-64 | a service on an empty store is the empty run |
| `AuthorityService.Service.CheckCall` | packages/digi-authority/src/service.ts:153-212 | check up to its first store call extends the object's run by that step |
| `AuthorityService.Service.CreateAsked` | packages/digi-authority/src/service.ts:214-236 | the owner is asked: the run goes on by that step |
| `AuthorityService.Service.ListGrants` | packages/digi-authority/src/service.ts:238-247 | some active grant that suits is found, or none does: the run goes on by that step |
| `AuthorityService.Service.CreateAllowed` | packages/digi-authority/src/service.ts:249-305 | a grant on the policy's terms, and the answer: the run goes on by that step |
| `AuthorityService.Service.ApproveCall` | packages/digi-authority/src/service.ts:324-333 | an approval joins its request's lane: the run goes on by that step |
| `AuthorityService.Service.DenyCall` | packages/digi-authority/src/service.ts:414-419 | a denial joins its request's lane: the run goes on by that step |
| `AuthorityService.Service.LaneStart` | packages/digi-authority/src/service.ts:343-375 | the head of a lane reads its request and refuses, or proceeds: the run goes on by that step |
| `AuthorityService.Service.WriteDenied` | packages/digi-authority/src/service.ts:421-441 | a denial, or the step-up refusal of an approval, is written and the lane moves on: the run goes on by that step |
| `AuthorityService.Service.CreateApproved` | packages/digi-authority/src/service.ts:377-396 | the approved grant is created: the run goes on by that step |
| `AuthorityService.Service.ResolveApproved` | packages/digi-authority/src/service.ts:397 | the request records its grant: the run goes on by that step |
| `AuthorityService.Service.MintApproved` | packages/digi-authority/src/service.ts:398-412 | a token comes back exactly when the call returns ok, and carries claims within the stored grant |
| `AuthorityService.Service.RevokeCall` | packages/digi-authority/src/service.ts:443-453 | revoke up to its write: the run goes on by that step |
| `AuthorityService.Service.WriteRevoked` | packages/digi-authority/src/service.ts:454-466 | the grant is revoked, and its owner has asked for that |
| `AuthorityService.Service.IssueCall` | packages/digi-authority/src/service.ts:468-505 | issueToken up to the minting: the run goes on by that step |
| `AuthorityService.Service.MintIssued` | packages/digi-authority/src/service.ts:506-558 | a token that comes back carries claims within the stored grant, for the owner who asked for it |
| `AuthorityService.Service.UseCall` | packages/digi-authority/src/service.ts:564-590 | useToken verifies the token: the run goes on by that step |
| `AuthorityService.Service.UseRead` | packages/digi-authority/src/service.ts:601-627 | useToken reads the grant and refuses, or proceeds: the run goes on by that step |
| `AuthorityService.Service.ConsumeJti` | packages/digi-authority/src/service.ts:629-645 | a one-time token's jti is consumed: the run goes on by that step |
| `AuthorityService.Service.Reserve` | packages/digi-authority/src/service.ts:647-649 | true is a use on record of a token the service's key has signed, and of a one-time grant the only one the object has ever let through |
| `AuthorityService.Service.UseReturn` | packages/digi-authority/src/service.ts:650-669 | useToken returns ok with the grant and jti it used; no other call has returned ok for a one-time grant |
| `AuthorityService.Service.Abort` | packages/digi-authority/src/service.ts:91-96 | a store call throws: the call ends where it stood and a lane moves on; the run goes on by that step |
| `AuthorityService.Service.OnlyUse` | packages/digi-authority/src/service.ts:629-649 | at every moment of the object all uses of a one-time grant are one call's |
| `AuthorityService.Service.UseIsSigned` | packages/digi-authority/src/service.ts:574-649 | at every moment of the object every use was of a token its key has signed |
| `AuthorityService.Service.IssuedToOwner` | packages/digi-authority/src/service.ts:468-558 | at every moment of the object every token it has issued was asked for by its subject |
| `AuthorityService.Service.RevokedByOwner` | packages/digi-authority/src/service.ts:443-466 | at every moment of the object every revoked grant was revoked by its owner |
| `AuthorityService.Service.ResolvedByOne` | packages/digi-authority/src/service.ts:324-441 | at every moment of the object a request has been resolved by one call at most |
| `AuthorityService.Service.IssuedIsWithin` | packages/digi-authority/src/service.ts:519-558 | at every moment of the object every token it has issued is within its grant as stored |
| `AuthorityService.Service.CountIsUses` | packages/digi-authority/src/stores.ts:120-127 | at every moment of the object the stored count is the number of uses on record and within every count limit |
| `AuthorityService.Service.AuthorizeCall` | packages/authority-verifier/src/index.ts:248-256 | authorizeAuthority verifies the token with its host's keys: the run goes on by that step |
| `AuthorityService.Service.ConsumeCall` | packages/authority-verifier/src/index.ts:258 | its consume calls useToken with the token as it came: the run goes on by that step |
| `AuthorityService.Service.AuthorizeReturn` | packages/authority-verifier/src/index.ts:259-261 | authorizeAuthority always returns the claims it had verified, once its consume has returned ok |
| `MemoryStores.KeysDiffer` | packages/digi-bridge/src/stores.ts:29-31 | pairs whose issuers hold no NUL have different keys |
| `MemoryStores.KeyIsUnique` | packages/digi-bridge/src/stores.ts:29-31 | a key is one pair's only exactly when neither part holds a NUL |
| `MemoryStores.NulMergesOwners` | packages/digi-bridge/src/stores.ts:29-31 | two pairs of one key share an owner, which takes a NUL |
| `MemoryStores.MemoryOwnerStore.constructor` | packages/digi-bridge/src/stores.ts:24-27 | the store starts empty |
| `MemoryStores.MemoryOwnerStore.ResolveOrCreate` | packages/digi-bridge/src/stores.ts:59-88 | the critical section answers as the locked store on keys, sets the times in place and touches no other object |
| `MemoryStores.KeyedIsPaired` | packages/digi-bridge/src/stores.ts:59-88 | for issuers without NUL that is the locked store on pairs |
| `MemoryStores.MemoryReplayStore.TryConsume` | packages/digi-bridge/src/stores.ts:116-126 | the first call for a jti wins and its row stays |
| `MemoryStores.MemorySessionStore.Create` | packages/digi-bridge/src/stores.ts:136-151 | the new session answers to its token until it expires, and no other token is affected |
| `MemoryStores.MemorySessionStore.Revoke` | packages/digi-bridge/src/stores.ts:159-162 | a revocation found by id is seen by token at every later moment, and by no other session |
| `PostgresStores.Connection.Begin` | packages/digi-bridge/src/postgres-stores.ts:113-122 | BEGIN shows the committed rows |
| `PostgresStores.Connection.Finish` | packages/digi-bridge/src/postgres-stores.ts:121-131 | COMMIT adds every row, ROLLBACK none |
| `PostgresStores.Connection.Consume` | packages/digi-bridge/src/postgres-stores.ts:272-281 | the INSERT inserts exactly a jti that was not there |
| `PostgresStores.Connection.Resolve` | packages/digi-bridge/src/postgres-stores.ts:203-263 | the speculative owner row, the conflict and the updates leave what the locked store leaves, no stray owner, and the missing-row errors are not reached |
| `PostgresStores.Connection.InsertSession` | packages/digi-bridge/src/postgres-stores.ts:300-312 | one session row for an owner that is there |
| `PostgresStores.Connection.TryConsume` | packages/digi-bridge/src/postgres-stores.ts:268-283 | inside a transaction it joins and commits nothing; on its own it is all or nothing |
| `PostgresStores.Connection.ResolveOrCreate` | packages/digi-bridge/src/postgres-stores.ts:202-264 | the same for owners |
| `PostgresStores.Connection.CreateSession` | packages/digi-bridge/src/postgres-stores.ts:296-313 | the same for sessions |
| `PostgresStores.Connection.Write` | packages/digi-bridge/src/exchange.ts:100-124 | the three store calls in order |
| `PostgresStores.Connection.Exchange` | packages/digi-bridge/src/exchange.ts:87-134 | with one transaction around it an exchange that throws leaves the database as it was, and one that succeeds consumes, resolves and opens one session together; on a connection that lasts for its statements it does not throw |
| `PostgresStores.SignsKeepsOwners` | packages/digi-bridge/src/exchange.ts:100-124 | a sign-in keeps owners and identities one to one |
| `ExchangeKeeps.StatementKeeps` | packages/digi-bridge/src/postgres-stores.ts:202-312 | every statement and every failure keeps the invariant and leaves the committed rows alone |
| `ExchangeKeeps.UpdateIdentityOk` | packages/digi-bridge/src/postgres-stores.ts:219-231 | after a unique conflict the row is there to update |
| `ExchangeCommits.CommitKeeps` | packages/digi-bridge/src/postgres-stores.ts:113-178 | every COMMIT keeps the invariant, whether its caller learns of it or not |
| `ExchangeRuns.ConsumedIffSession` | packages/digi-bridge/src/exchange.ts:99-124 | in every interleaving no jti has two sessions, and one whose exchanges ran in one transaction is consumed exactly when it has a session |
| `ExchangeRuns.SessionOwner` | packages/digi-bridge/src/exchange.ts:108-114 | a session belongs to the owner of its assertion's pair |
| `ExchangeRuns.UnjoinedSpendsForNothing` | packages/digi-bridge/src/exchange.ts:87 | without runWrite there is, for every assertion, a run that consumes it and opens no session |
| `ExchangeRuns.OwnersAreIdentities` | packages/digi-bridge/src/postgres-stores.ts:202-264 | committed owners and identities are one to one: no owner without its pair, none with two |
| `ExchangeRuns.OwnerIsStable` | packages/digi-bridge/src/postgres-stores.ts:202-264 | a pair that has an owner keeps it |
| `ExchangeRuns.StepIsLocked` | packages/digi-bridge/src/postgres-stores.ts:202-264 | seen from the committed owners every commit that resolves is one whole step of the locked store with the same answer, and nothing else changes them |
| `ExchangeRuns.CreatedOnce` | packages/digi-bridge/src/postgres-stores.ts:248-262 | of the calls that resolved a pair exactly one created its owner and all were given it |
| `ExchangeRuns.RowsAreThere` | packages/digi-bridge/src/postgres-stores.ts:228-257 | the errors for missing rows are never thrown |
| `ExchangeRuns.OutcomesAreTrue` | packages/digi-bridge/src/exchange.ts:136-173 | what a caller is told is committed: its session, its owner, or the consumption that makes it a replay |
| `ExchangeAnswers.CommitAnswers` | packages/digi-bridge/src/exchange.ts:99-173 | a caller that sees its commit is told of a session exactly if that commit brought one, of a replay only if it brought nothing for an assertion consumed before, of the owner on record; an exchange in no transaction goes on with its next store call |
| `ExchangeAnswers.SessionIsTold` | packages/digi-bridge/src/exchange.ts:136-173 | whoever commits a session is told of that session, its owner, and whether the owner is new |
| `ExchangeAnswers.ReplayIsAnothers` | packages/digi-bridge/src/exchange.ts:136-143 | a call told of a replay has committed nothing and opened no session, and its assertion was consumed before its one commit |
| `ExchangeAnswers.MayFail` | packages/digi-bridge/src/exchange.ts:125-134 | any call may fail until it is over, and no failure changes what is committed |
| `ExchangeAnswers.MayGoUnseen` | packages/digi-bridge/src/postgres-stores.ts:113-178 | a commit may take effect without its caller learning so |
| `ExchangeAlone.JoinedSignsIn` | packages/digi-bridge/src/exchange.ts:87-173 | undisturbed, an exchange of a fresh assertion in one transaction signs in the owner of its pair, new exactly if the pair had none; the rows it leaves are exactly these |
| `ExchangeAlone.UnjoinedSignsIn` | packages/digi-bridge/src/exchange.ts:87-173 | in no transaction it comes to the same if nothing fails |
| `ExchangeAlone.SpentIsReplay` | packages/digi-bridge/src/exchange.ts:99-143 | a spent assertion is refused as a replay and nothing is written |
| `ExchangeAlone.ResolveAlone` | packages/digi-bridge/src/postgres-stores.ts:202-264 | resolveOrCreate on its own gives the pair's owner or makes one |
| `ExchangeRuns.NoDeadlock` | packages/digi-bridge/src/postgres-stores.ts:113-178 | while a call is unfinished some call can take its next step |
| `ExchangeRuns.NoTrace` | packages/digi-bridge/src/postgres-stores.ts:172-178 | a call that never commits leaves no trace: the run without its steps is a run and commits the same rows |

## Left out

- X3DH, AES-GCM, HMAC attestations, WebAuthn and key generation: they rest on cryptographic calls that are not visible.
- HTTP routes, JWKS fetching and its cache, configuration, React and native code: no state property of their own.
- Audit events: their contents and order; where a failing audit write ends a call, `Abort` or the `audited` label stands for it.
- The texts of the reasons a grant or a token is refused with, which are names here; jose's own rejections all read `invalid_token`.
- `delegate` of the service, which is disabled; `assertDelegationSubset` is modelled.
- `listPending`, `listActive`, `listRevoked`, `inspect`, `isJtiConsumed`, `bumpGrantUsage`: reads with nothing to prove, or unused.
- The order of `listGrants`: `check` takes any grant that suits, as the stores differ in their orders.
- A consumption client of `authorizeAuthority` other than `useToken` of the service modelled.
- Several service instances: the lanes live in one process.
- One grant per actor and action: `check` is not serialised, so budgets are per grant.
- Share indexes and thresholds that are not integers, and what Buffer makes of text that is not base64, which is a parameter.
- `concatBytes` and `splitRecoveryMasterKey`: the first only copies, the second only draws a secret to split.
- Rounding of doubles: finite numbers are reals, and the code only compares them.
- Times, identity ids, token texts and their hashes in the database tables; expiry and revocation are modelled in the memory session store.
- Two loops of `splitSecret` and `combineShares` are methods of their own (`DrawCoefficients`, `Rebuild`).
- Row locks of the owner row: they are taken in the order of the identity rows, whose waits are modelled.
- StoreSteps.PostgresRefinesMemory: takes clock texts that Postgres reads as the times they say, since what TIMESTAMPTZ makes of a year with a sign is not modelled.
- AuthorityService.Service.ListGrants: promises some suiting grant, not the first in insertion order.
