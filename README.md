# BoxPeer core, modelled in Dafny

BoxPeer is a peer-to-peer content network. A node registers content it provides, splits
files into chunks that are hashed and spread over peers, locks chunks it caches for
others, and talks to other nodes through a libp2p swarm. A browser frontend lists the
on-chain content catalogue, renders previews and puts paid content behind a paywall.

This project models the parts of that system whose behaviour is decided by the code
itself, not by libraries or I/O:

- `network.dfy`: the network event loop. It is a class whose four pending maps
  (dials, start-providing queries, get-providers queries, file requests) are filled by
  `handle_command` and emptied by `handle_event`. A ghost status map records, for every
  reply channel, whether it is waiting in exactly one slot, has been answered or was
  dropped. The class invariant gives:
  - every reply channel is answered at most once;
  - a waiting channel has not been answered;
  - every pending id comes from a query or request the loop itself started.
  Each `expect` of the source is a transition to `crashed`. The dispatchers state
  exactly which commands and events panic.
- `content.dfy`: the content manager. The SQL tables are sequences in rowid order, and
  the upserts and the delete are functions on those sequences; the manager class calls
  them. The file also holds the round-robin chunk distribution with its
  `{hash}_chunk_{i}` ids, and the chunking read loop. Each read may be short; the loop
  is proved to reassemble the file and to log one digest row per chunk.
- `node.dfy`: node roles, their string round trip, and the read-modify-write of the
  stored peer record.
- `preview.dfy`, `types.dfy`: the preview list shared by the frontend pages, an upsert
  keyed by cid.
- `hex.dfy`, `numerals.dfy`: lower-case hex encoding of a digest, and the radix
  strings behind it. The same radix strings give the decimal chunk index and the
  digits that `parseInt` reads.
- `file_utils.dfy`: covers the following frontend logic:
  - the MIME table and the preview element chosen per extension;
  - JavaScript `parseInt` of the fee;
  - the fee badge and the paywall condition;
  - the purchase check;
  - the lookup of metadata by cid.

Where the code and the documented intent of the system differ, the model follows the
code:
- A providers query that ends with no provider is never answered. The
  `FinishedWithNoAdditionalRecord` arm does nothing, so the caller waits forever
  instead of getting an empty set. `Network.GetProvidersWithoutProviders` shows this.
- `add_provided_content` never writes `chunk_count`. The column stays NULL, so no chunk
  count is recorded at upload time.
- A response or failure for a request nobody waits for is fatal (`expect`); it is not
  logged and recovered from. See Findings.

Modelling choices:
- Rows come back in rowid order.
- An AUTOINCREMENT id is modelled only as an increasing counter.
- A NULL column is `None`.
- The swarm's answer to a call that can fail is a parameter.
- SHA-256 and the parser of peer ids are function parameters.
- The loop's `sent` log records every send on a reply channel, including a send to a
  receiver that was dropped. A dropped receiver is a separate set.
- Swarm query and request ids are handed out in order: the next id is the count so far.

## Model

| member | source | states |
|---|---|---|
| Network.EventLoop.constructor | src-tauri/src/network.rs:248-262 | a new loop has empty pending maps, no replies and satisfies the invariant |
| Network.EventLoop.OneSlotPerReply | src-tauri/src/network.rs:237-246 | a reply channel waits in at most one pending slot across the four maps |
| Network.EventLoop.WaitingIsUnanswered | src-tauri/src/network.rs:237-246 | a channel still waiting in a pending map has received no reply |
| Network.EventLoop.ReceiverDropped | src-tauri/src/network.rs:329-330 | a caller dropping its receiver only marks it dropped; the invariant holds |
| Network.EventLoop.AnswerDial | src-tauri/src/network.rs:398-422 | the peer's pending dial is removed and its channel answered once, marked answered; the invariant holds |
| Network.EventLoop.AnswerStartProviding | src-tauri/src/network.rs:285-290 | the query's pending entry is removed and its channel answered once; the invariant holds |
| Network.EventLoop.AnswerGetProviders | src-tauri/src/network.rs:329-330 | the query's pending entry is removed and its channel answered once; the invariant holds |
| Network.EventLoop.AnswerRequestFile | src-tauri/src/network.rs:365-386 | the request's pending entry is removed and its channel answered once; the invariant holds |
| Network.EventLoop.AnswerFresh | src-tauri/src/network.rs:434-457 | a channel that never waited is answered once and marked answered |
| Network.EventLoop.StartQuery | src-tauri/src/network.rs:497-513 | a new Kademlia query gets the next id, which no pending map holds yet |
| Network.EventLoop.SendRequest | src-tauri/src/network.rs:521-525 | a new request gets the next id, which the pending request map does not hold yet |
| Network.EventLoop.ParkStartProviding | src-tauri/src/network.rs:503 | the channel now waits under the query id; the invariant holds |
| Network.EventLoop.ParkGetProviders | src-tauri/src/network.rs:514 | the channel now waits under the query id; the invariant holds |
| Network.EventLoop.ParkRequestFile | src-tauri/src/network.rs:526 | the channel now waits under the request id; the invariant holds |
| Network.EventLoop.RouteAndDial | src-tauri/src/network.rs:477-481 | the address is added to the routing table for the peer and dialled with the peer id appended |
| Network.EventLoop.ParkDial | src-tauri/src/network.rs:482-484 | the channel now waits as the peer's pending dial; the invariant holds |
| Network.EventLoop.HandleStartListening | src-tauri/src/network.rs:434-444 | the address is added to the routing table under the local peer id; the caller gets the local peer id, or the listen error, exactly once |
| Network.EventLoop.HandleGetPeers | src-tauri/src/network.rs:445-448 | replies with the connected peers (no duplicates) and changes no pending map or swarm state |
| Network.EventLoop.HandleGetAvailablePeers | src-tauri/src/network.rs:449-457 | the copy loop replies with exactly the connected peers, the same answer as GetPeers |
| Network.EventLoop.HandleStartProvidingRequest | src-tauri/src/network.rs:458-468 | sends one request and records no pending entry |
| Network.EventLoop.HandleDial | src-tauri/src/network.rs:469-492 | a peer already being dialled: the new channel is dropped and nothing else changes; otherwise the address is routed and dialled, an accepted dial parks the channel under the peer, a rejected one answers Err and leaves the map unchanged |
| Network.EventLoop.HandleStartProviding | src-tauri/src/network.rs:493-504 | one pending entry under the fresh query id; a store error panics |
| Network.EventLoop.HandleGetProviders | src-tauri/src/network.rs:505-515 | one pending entry under the fresh query id |
| Network.EventLoop.HandleRequestFile | src-tauri/src/network.rs:516-527 | one pending entry under the fresh request id |
| Network.EventLoop.HandleRespondFile | src-tauri/src/network.rs:528-534 | the response is handed to the channel; a closed connection panics |
| Network.EventLoop.HandleFindPeers | src-tauri/src/network.rs:535-542 | starts a closest-peers query that nobody waits for |
| Network.EventLoop.HandleGetActualListeningAddress | src-tauri/src/network.rs:543-553 | replies with a listen address, or Err "No listening address found" exactly when there is none |
| Network.EventLoop.HandleCommand | src-tauri/src/network.rs:432-556 | every command keeps the invariant; the loop panics exactly on a rejected start-providing or response |
| Network.EventLoop.OnStartProvidingProgressed | src-tauri/src/network.rs:279-291 | panics iff the query is not pending; otherwise removes it and answers its channel once |
| Network.EventLoop.OnRoutingUpdated | src-tauri/src/network.rs:292-307 | a peer seen by Kademlia is dialled at its first address; no channel is answered |
| Network.EventLoop.OnMdnsDiscovered | src-tauri/src/network.rs:309-316 | every discovered (peer, address) pair is added to the routing table, nothing else changes |
| Network.EventLoop.OnFoundProviders | src-tauri/src/network.rs:318-340 | for a pending query: removes it and sends the providers, which the log records even for a dropped receiver; the loop then panics iff the receiver was dropped, and otherwise finishes the query; an unknown query changes nothing |
| Network.EventLoop.OnInboundRequest | src-tauri/src/network.rs:354-364 | an inbound request is forwarded to the node as an event |
| Network.EventLoop.ResolveRequestFile | src-tauri/src/network.rs:365-386 | a pending request is removed and answered once with the result; an unknown id is reported and changes nothing |
| Network.EventLoop.OnResponseReceived | src-tauri/src/network.rs:365-374 | panics iff the request is not pending; otherwise removes it and answers Ok with the response |
| Network.EventLoop.OnOutboundFailure | src-tauri/src/network.rs:376-386 | panics iff the request is not pending; otherwise removes it and answers Err |
| Network.EventLoop.OnNewListenAddr | src-tauri/src/network.rs:390-396 | the new listen address becomes available to GetActualListeningAddress |
| Network.EventLoop.OnConnectionEstablished | src-tauri/src/network.rs:398-408 | the peer is connected; on the dialer side its pending dial is removed and answered Ok, on the listener side the dial map is untouched |
| Network.EventLoop.OnConnectionClosed | src-tauri/src/network.rs:409-411 | the peer leaves the connected set once its last connection closes; other peers are unaffected |
| Network.EventLoop.OnOutgoingConnectionError | src-tauri/src/network.rs:412-422 | with a peer id, that peer's pending dial is removed and answered Err; without one, no map changes |
| Network.EventLoop.HandleEvent | src-tauri/src/network.rs:277-430 | every event keeps the invariant; the loop panics exactly on the events that reach an `expect` or the catch-all arm; logged-only events change nothing |
| Network.EventLoop.HandleKademliaEvent | src-tauri/src/network.rs:278-350 | the Kademlia arms of the dispatch, with the same guarantees |
| Network.EventLoop.HandleRequestResponseEvent | src-tauri/src/network.rs:351-389 | the request-response arms of the dispatch, with the same guarantees |
| Network.EventLoop.HandleConnectionEvent | src-tauri/src/network.rs:390-428 | the connection and listener arms of the dispatch, with the same guarantees |
| Network.SenderOf | src-tauri/src/network.rs:566-612 | exactly the commands without a reply channel yield none |
| Network.RequestFileAnswered | src-tauri/src/network.rs:516-527 | a file request followed by its response resolves the requester with the data |
| Network.DialResolvedByDialerOnly | src-tauri/src/network.rs:398-408 | a listener-side connection leaves the dial pending; the dialer-side one answers Ok |
| Network.DialTwice | src-tauri/src/network.rs:476-491 | two dials of one peer keep the first channel and dial once |
| Network.GetProvidersWithoutProviders | src-tauri/src/network.rs:341-349 | a providers query that finishes with no record leaves its caller unanswered |
| Network.StartProvidingRequestAnswered | src-tauri/src/network.rs:365-374 | the response to a start-providing request panics the loop |
| Network.StartProvidingRequestAnsweredTolerated | src-tauri/src/network.rs:458-468 | with tolerant resolution the same response is reported and the loop keeps running |
| Content.ToI64 | src-tauri/src/content.rs:168 | `file_size as i64` is the two's-complement reinterpretation of the u64 |
| Content.ToI64Injective | src-tauri/src/content.rs:168 | the cast loses no information |
| Content.UpsertProvidedExisting | src-tauri/src/content.rs:156-164 | re-registering a hash overwrites peer id, size and name in place |
| Content.UpsertProvidedNew | src-tauri/src/content.rs:156-164 | a new hash is appended with the next id and no chunk count |
| Content.UpsertProvidedKeepsInvariant | src-tauri/src/content.rs:75-82 | hashes stay unique, ids stay increasing, and exactly one row carries the hash |
| Content.UpsertProvidedNeverSetsChunkCount | src-tauri/src/content.rs:156-164 | no registration ever sets `chunk_count` |
| Content.UpsertProvidedIdempotent | src-tauri/src/content.rs:156-164 | registering the same content twice equals registering it once |
| Content.UpsertLockedExisting | src-tauri/src/content.rs:211-218 | re-locking a (hash, index) overwrites size and peer in place |
| Content.UpsertLockedNew | src-tauri/src/content.rs:211-218 | a new (hash, index) is appended |
| Content.UpsertLockedKeepsUnique | src-tauri/src/content.rs:120-127 | (hash, index) keys stay unique and the key is present afterwards |
| Content.Unlock | src-tauri/src/content.rs:246-250 | deletes exactly the rows of that hash and peer; every other row survives |
| Content.UnlockNoMatch | src-tauri/src/content.rs:246-250 | with no matching row the table is unchanged |
| Content.UnlockKeepsUnique | src-tauri/src/content.rs:246-250 | deleting keeps (hash, index) keys unique |
| Content.ProvidedContentAtMostOne | src-tauri/src/content.rs:331-356 | with unique hashes the query returns exactly that hash's row |
| Content.AddThenGetProvided | src-tauri/src/content.rs:149-175 | after a registration the query returns the latest peer, size and name |
| Content.ProvidedContentAbsent | src-tauri/src/content.rs:331-356 | an unregistered hash returns no row |
| Content.PeerProvidedContent | src-tauri/src/content.rs:299-320 | returns exactly the hashes registered by that peer |
| Content.PeerLockedContent | src-tauri/src/content.rs:270-288 | one hash per locked row of that peer, in row order, so a content appears once per chunk the peer locked; a hash is listed iff the peer locked a chunk of it |
| Content.LockNewChunkAddsEntry | src-tauri/src/content.rs:204-229 | locking a new chunk appends its content hash to the locking peer's list and leaves other peers' lists unchanged |
| Content.LockedContent | src-tauri/src/content.rs:393-409 | one hash per locked row, in row order |
| Content.UnlockHidesFromQueries | src-tauri/src/content.rs:548-572 | after unlocking, the chunk query shows no chunk of that peer and still shows other peers' chunks |
| Content.RelockThenUnlock | src-tauri/src/content.rs:204-259 | a chunk re-locked by another peer survives the first peer's unlock |
| Content.ChunkId | src-tauri/src/content.rs:440 | a chunk id starts with the content hash and is longer |
| Content.ChunkIdInjective | src-tauri/src/content.rs:440 | distinct indices give distinct chunk ids |
| Content.RoundRobinCoversPeers | src-tauri/src/content.rs:437-446 | with at least as many chunks as peers, every peer gets a chunk |
| Content.RoundRobinIdsDistinct | src-tauri/src/content.rs:437-446 | the assigned chunk ids are pairwise distinct and carry the hash |
| Content.DistributeFileChunks | src-tauri/src/content.rs:422-447 | Err "No available peers to distribute chunks." exactly when there are no peers; otherwise pair i is (peers[i mod n], hash_chunk_i) |
| Content.OpenFile.constructor | src-tauri/src/content.rs:588-589 | a file opens at position 0 |
| Content.OpenFile.Read | src-tauri/src/content.rs:593-595 | a read returns between 1 and max next bytes, or 0 only at end of file or for max 0, or fails without moving |
| Content.DigestRows | src-tauri/src/content.rs:598-606 | one digest row per chunk |
| Content.CollectProvided | src-tauri/src/content.rs:341-353 | the row loop yields the rows of the hash |
| Content.ContentManager.constructor | src-tauri/src/content.rs:40-135 | empty tables satisfying the invariant |
| Content.ContentManager.AddProvidedContent | src-tauri/src/content.rs:149-175 | the provided table becomes the upsert of the row; the id counter advances only for a new hash |
| Content.ContentManager.AddNode | src-tauri/src/content.rs:177-190 | appends the peer, duplicates allowed |
| Content.ContentManager.LockContent | src-tauri/src/content.rs:204-229 | the locked table becomes the upsert of the row |
| Content.ContentManager.UnlockContent | src-tauri/src/content.rs:241-259 | the locked table loses exactly that hash's rows of that peer |
| Content.ContentManager.GetPeerIdLockedContent | src-tauri/src/content.rs:270-288 | one hash per locked row of the peer, in row order; a hash is listed iff the peer locked a chunk of it |
| Content.ContentManager.GetPeerIdProvidedContent | src-tauri/src/content.rs:299-320 | exactly the hashes provided by the peer |
| Content.ContentManager.GetLockedContent | src-tauri/src/content.rs:393-409 | every locked row's hash in order |
| Content.ContentManager.GetProvidedContent | src-tauri/src/content.rs:331-356 | the rows of the hash, at most one |
| Content.ContentManager.GetChunksForContent | src-tauri/src/content.rs:548-572 | (index, peer, size) of every locked row of the hash, in order |
| Content.ContentManager.GetChunksForFile | src-tauri/src/content.rs:532-537 | the same rows as the content query |
| Content.ContentManager.GetNodes | src-tauri/src/content.rs:363-386 | all stored ids parsed in order, or the first parse error prefixed "Failed to parse PeerId: " |
| Content.ContentManager.SplitFileIntoChunks | src-tauri/src/content.rs:583-611 | chunks of 1..chunk_size bytes concatenating to the file, one digest row each in order; chunk size 0 gives none; a missing file is an error |
| Node.ToString | src-tauri/src/node.rs:28-34 | every role has a non-empty name |
| Node.FromString | src-tauri/src/node.rs:36-43 | parses exactly the three role names |
| Node.RoleNameRoundTrip | src-tauri/src/node.rs:28-43 | parsing a role's name gives the role back |
| Node.RoleNamesDistinct | src-tauri/src/node.rs:28-34 | distinct roles have distinct names |
| Node.FromStringOnlyRoleNames | src-tauri/src/node.rs:36-43 | every other string is rejected; accepted strings print back unchanged |
| Node.RoleCapabilities | src-tauri/src/node.rs:19-27 | providers and distributors provide, only distributors distribute, and everyone consumes |
| Node.LoadPeerInfo | src-tauri/src/node.rs:111-119 | a record is loaded exactly when the file holds one |
| Node.SaveNodeType | src-tauri/src/node.rs:74-89 | sets the role, keeps id and address, or empty strings when there is no record |
| Node.SavePeerInfo | src-tauri/src/node.rs:90-109 | overwrites id and address, keeps any stored role |
| Node.SetNodeType | src-tauri/src/node.rs:121-142 | succeeds exactly on a stored record, changing only its role |
| Node.GetNodeType | src-tauri/src/node.rs:144-156 | the stored role, or "Node type not set" when the record has none |
| Node.SaveThenGetNodeType | src-tauri/src/node.rs:74-89 | a saved role is read back |
| Node.SavePeerInfoKeepsRole | src-tauri/src/node.rs:90-109 | saving the peer record does not change the role read back |
| Node.SavesCommute | src-tauri/src/node.rs:74-109 | the two saves commute |
| Node.SavesIdempotent | src-tauri/src/node.rs:74-109 | repeating a save changes nothing |
| Preview.FindIndex | src/context/PreviewContext.tsx:19 | the first index holding the cid, or -1 exactly when there is none |
| Preview.Update | src/context/PreviewContext.tsx:17-28 | the new entry is present; length kept for a present cid, one more for an absent one |
| Preview.GetPreviewByCid | src/context/PreviewContext.tsx:30-32 | undefined exactly when no entry has the cid; otherwise an entry with that cid |
| Preview.UpdateReplacesExisting | src/context/PreviewContext.tsx:19-23 | a present cid's first entry is replaced at the same index |
| Preview.UpdateAppendsAbsent | src/context/PreviewContext.tsx:24-25 | an absent cid is appended at the end |
| Preview.UpdateKeepsOthers | src/context/PreviewContext.tsx:21-25 | entries of other cids are unchanged at their index |
| Preview.GetAfterUpdate | src/context/PreviewContext.tsx:17-32 | after an update the lookup returns exactly the stored entry |
| Preview.GetOtherAfterUpdate | src/context/PreviewContext.tsx:17-32 | an update does not change lookups of other cids |
| Preview.UpdateKeepsUnique | src/context/PreviewContext.tsx:19-25 | unique cids stay unique |
| Preview.UpdateIdempotent | src/context/PreviewContext.tsx:19-27 | the same update twice equals once |
| Hex.PadStart | src/utils/hashname.ts:76 | pads on the left with the fill to the width, keeping the string as its suffix |
| Hex.ByteToHexDigits | src/utils/hashname.ts:76 | each byte becomes exactly its two hex digits, high nibble first |
| Hex.HexEncode | src/utils/hashname.ts:75-77 | output length is twice the byte count |
| Hex.HexEncodeAt | src/utils/hashname.ts:75-77 | byte i is encoded at characters 2i and 2i+1 |
| Hex.HexEncodeIsLowerHex | src/utils/hashname.ts:76 | every character is in 0-9a-f |
| Hex.HexRoundTrip | src/utils/hashname.ts:75-77 | decoding the hex string gives the bytes back |
| Hex.HexEncodeInjective | src/utils/hashname.ts:75-77 | distinct digests of equal length give distinct names |
| Numerals.ToRadix | src/utils/hashname.ts:76 | canonical digits, one digit exactly below the radix |
| Numerals.FromToRadix | src-tauri/src/content.rs:440 | reading the digits back gives the number |
| Numerals.ToRadixInjective | src-tauri/src/content.rs:440 | distinct numbers print differently |
| Numerals.TwoDigits | src/utils/hashname.ts:76 | numbers below radix squared print as two digits |
| FileUtils.GetMimeType | src/utils/fileUtils.tsx:16-27 | octet-stream exactly for undefined or an extension outside jpg, png, txt, pdf, mp3, mp4, mkv |
| FileUtils.MimeTypeInjective | src/utils/fileUtils.tsx:17-24 | the known extensions have distinct MIME types |
| FileUtils.MediaFor | src/utils/fileUtils.tsx:67-77 | the element points at the file URL |
| FileUtils.MediaAgreesWithMime | src/utils/fileUtils.tsx:67-77 | image, video and audio previews exactly for those MIME families, a frame exactly for PDF, a download link for txt and the rest |
| FileUtils.ParseIntDecimal | src/utils/fileUtils.tsx:88 | parseInt of a decimal numeral followed by a non-digit is its value |
| FileUtils.ParseIntNegativeDecimal | src/utils/fileUtils.tsx:88 | a leading minus negates |
| FileUtils.ParseIntHex | src/utils/fileUtils.tsx:88 | a 0x prefix reads hexadecimal |
| FileUtils.ParseIntSkipsSpace | src/utils/fileUtils.tsx:88 | leading white space is skipped |
| FileUtils.ParseIntNaN | src/utils/fileUtils.tsx:88 | no digits gives NaN |
| FileUtils.ParseSigned | src/utils/fileUtils.tsx:88 | a negative result needs a leading minus sign |
| FileUtils.ParseInt | src/utils/fileUtils.tsx:101 | a negative result needs a minus sign after the white space |
| FileUtils.PaywallShowsBadge | src/utils/fileUtils.tsx:88-101 | a paywalled card carries the fee badge; a negative fee shows the badge without a paywall |
| FileUtils.PaywallOfDecimalFee | src/utils/fileUtils.tsx:101 | for a decimal fee, paywalled exactly when the fee is positive and not purchased |
| FileUtils.HasPurchased | src/utils/fileUtils.tsx:30-42 | true exactly when the call succeeds and the account is in some purchaser list |
| FileUtils.FindByCid | src/utils/fileUtils.tsx:162-163 | the first object with the cid, or none exactly when there is none |
| FileUtils.FetchFileMetadataByCid | src/utils/fileUtils.tsx:147-168 | a failed listing gives null; a result has the cid and is listed |
| FileUtils.FetchUniqueCid | src/utils/fileUtils.tsx:162-163 | a cid listed once is found with its metadata |
| FileUtils.GetPreview | src/utils/fileUtils.tsx:63-118 | without an account the wallet message and no update; otherwise one upsert |
| FileUtils.GetPreviewThenLookup | src/utils/fileUtils.tsx:63-118 | the stored card has the item's metadata and media, and is locked exactly when the fee is positive and the account is not a purchaser |

## Left out

- I/O is not modelled beyond what is listed here:
  - SQL engine errors and the connection pool (every statement succeeds);
  - JSON encoding of the peer record and write failures;
  - the keypair file;
  - the cache directory, `read_cached_chunks` and `cache_chunk_locally` with their base64 decoding.
- Concurrency is not modelled. This covers the `select!` loop in `run`, the channels in the network client methods, and the forwarding of inbound requests, where the receiver is assumed never to be dropped. Each handler call is one atomic step.
- The libp2p internals are not modelled: Kademlia, mDNS, request-response, the transport and the swarm construction. These parts are left out:
  - the idle-connection timeout;
  - the iteration order of connected peers and listen addresses. The model uses the order of arrival; the library uses hash-map order.
- SHA-256 is a function parameter of the chunking code. `hashName` is modelled from its digest on: the digest bytes are an input, and the UTF-8 encoding of the name and its hashing are not modelled.
- The Aptos contract calls are left out, along with the React state of `fetchFileMetadata` and `handlePay` and all rendering. The mapping of contract items to `FileObject` is also left out. The model spells the `owner_name` field of `FileObject` as `ownerName`.
- The text of I/O and JSON errors is not modelled. For `io::Error` and `serde_json::Error`, the model promises only that an `Err` occurs. The messages it uses are stand-ins for whatever those errors would print.
- The fee display `parseInt(consumerFee) / 10 ** 8` is floating point and is left out.
- FileUtils.ParseInt: numbers are exact. JavaScript's loss of precision above 2^53 and the distinction between `-0` and `0` are not modelled.
- Content.ContentManager.AddProvidedContent: the AUTOINCREMENT id is modelled only as increasing. SQLite's behaviour of consuming an id on a conflicting insert is not modelled.
- Content.OpenFile.Read: the choice of how many bytes a read returns is nondeterministic, so the contract states bounds, not an exact count.
- Network.EventLoop.HandleGetActualListeningAddress: the contract promises some listen address, not the first, because the library's listener order is unspecified.
- Network.EventLoop.OnFoundProviders: the model assumes the query still exists when it is finished, so the `unwrap` of `query_mut` never fails.

## Findings

| source | as written | input that shows it | evidently intended | confidence | as-written member | corrected member |
|---|---|---|---|---|---|---|
| src-tauri/src/network.rs:458-468 | `StartProvidingRequest` sends a request without recording its id. The response arm and the failure arm then `expect` the id to be pending (372, 384) and panic, which stops the event loop. | a `StartProvidingRequest` to any peer followed by that peer's response (or an outbound failure) | a response or failure that nobody waits for is reported and dropped; the loop keeps running and answers nobody | not executed | Network.StartProvidingRequestAnswered | Network.EventLoop.ResolveRequestFile |
