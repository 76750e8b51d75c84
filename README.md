# hedera-wallet, modelled in Dafny

hedera-wallet is a browser wallet that speaks WalletConnect (through Reown WalletKit). It holds two Hedera accounts:
- an ECDSA account, used through an EVM signer (`EIP155Wallet`, the eight `eth_*`/`personal_sign` methods);
- an Ed25519 account, used through a native signer (`HIP820Wallet`, the six `hedera_*` methods of HIP-820).

The model covers five parts:

- **Credential vault** (`CredentialVault`, `Base64`). The wallet data is sealed with a password as base64(salt ‖ iv ‖ AES-256-GCM ciphertext), with the key from PBKDF2-HMAC-SHA-256. The password marker kept for the browser session is a base64 SHA-256 digest. The byte layout and base64 (section 4 of RFC 4648) are concrete. The WebCrypto primitives are function values, with their assumed behaviour collected in `CredentialVault.Sound`.
- **Session lifecycle** (`WalletProvider`, `LegacyWalletProvider`). These are the two React providers, src/store/hedera-wallet-provider.tsx and the older src/store/HederaWalletProvider.tsx (the one src/main.tsx mounts). Each is a class whose fields are the provider's state. The browser storages are maps, and `sent` logs the calls made on the WalletKit connection. Each method is proved to end in the state given by a pure step function, and the properties are lemmas on those step functions.
- **Namespace negotiation** (`Sessions`, `Eip155Data`). These are the `supportedNamespaces` each provider offers to `buildApprovedNamespaces`, and the static EIP-155 chain and method tables.
- **Request classification and dispatch** (`Sessions.RequestResponse`, `Eip155Wallet`, `Hip820Wallet`, `Misc`, `HelperUtils`):
  - routing by membership in the EVM method set;
  - the EVM signer's switch, which turns every outcome into a JSON-RPC response carrying the request id;
  - the HIP-820 param validation, decoding and dispatch;
  - the param-extraction helpers.
- **EVM address of the Ed25519 account** (`HederaAddress`). The mirror node's answer is preferred, the SDK's computed address is the fallback, and the result is normalised to a `0x` prefix.

Thrown JavaScript values are `Rpc.Thrown` (an `Error` with its message, or any other value). Operations that may throw return `Result`. Property reads follow JavaScript: reading from `undefined`/`null` throws, and an absent field reads as `undefined` (`Rpc.Get`).

Behaviours of the code as written that the model keeps:
- With a password, `initialize` writes the vault before it checks the four credentials, so a failing initialize still leaves a vault behind (`WalletProvider.VaultPersistedBeforeValidation`).
- `initialize` catches its own failures, so `unlock` returns true and unlocks even when the stored credentials cannot initialize the wallet (`WalletProvider.UnlockCanLeaveUninitialized`).
- In the older provider, declining a proposal rejects it and then still attempts the approval (`LegacyWalletProvider.ProposalOutcome`).
- The older `disconnect` keeps the WalletKit connection, and a later `initialize` reuses it (`LegacyWalletProvider.ReinitializeReusesConnection`).
- An approve that throws sends no response. In the newer provider it escapes the modal callback; in the older one it is alerted (`Sessions.WhenApproveThrows`).
- The EVM send path computes a hash for a string `txResponse` but then calls `txResponse.wait()`, which a string does not have, so such a response ends as an error response (`Eip155Wallet.SendResult`).
- `parseSessionRequest` with `shouldThrow = false` returns whatever was assigned before the throw (`Hip820Wallet.PartialAssignmentKept`).
- `decrypt` decodes with `new TextDecoder()`, which drops a leading byte order mark (U+FEFF). A plaintext that starts with one comes back without it (`CredentialVault.DecryptEncrypt`). The wallet data is JSON object text, which starts with `{`, so the vault is not affected.

## Model

| member | source | states |
|---|---|---|
| Base64.EncodeLength | src/utils/crypto.ts:48 | `btoa` output has 4 characters per started group of 3 bytes |
| Base64.EncodeCharacters | src/utils/crypto.ts:48 | every character `btoa` produces is in the base64 alphabet or is `=` |
| Base64.NoWhitespaceInEncode | src/utils/crypto.ts:53 | stripping whitespace, as the forgiving `atob` does, leaves an encoding unchanged |
| Base64.DecodeEncode | src/utils/crypto.ts:48-53 | decoding an encoding gives back every byte sequence |
| Base64.BinaryRoundTrip | src/utils/crypto.ts:48-53 | `btoa(String.fromCharCode(...b))` succeeds and `atob` of it, read through `charCodeAt`, gives back b for every byte 0..255 |
| CredentialVault.DerivedKeyLength | src/utils/crypto.ts:16-27 | the derived AES-GCM key is 256 bits for any password and salt (PBKDF2, SHA-256, 100 000 iterations) |
| CredentialVault.SetAt | src/utils/crypto.ts:44-46 | `combined.set(src, offset)` writes src at offset and leaves every other cell as it was |
| CredentialVault.Combine | src/utils/crypto.ts:42-46 | the combined buffer has salt at [0,16), iv at [16,28), the ciphertext from 28, and length 28 + ciphertext length |
| CredentialVault.SplitInvertsLayout | src/utils/crypto.ts:53-56 | the three slices of decrypt recover exactly the salt, iv and ciphertext that encrypt set |
| CredentialVault.Encrypt | src/utils/crypto.ts:30-49 | the record is the base64 of salt ‖ iv ‖ AES-GCM sealing of the UTF-8 plaintext under the derived key |
| CredentialVault.Decrypt | src/utils/crypto.ts:51-66 | every failure of decrypt is the single "Failed to decrypt data. Invalid password or corrupted data." error |
| CredentialVault.DecryptBytes | src/utils/crypto.ts:53-62 | decrypting a record is splitting its decoded bytes, deriving the key from the stored salt, and opening with the stored iv |
| CredentialVault.DecryptEncrypt | src/utils/crypto.ts:30-62 | decrypt(encrypt(M, P), P) is M with a leading byte order mark dropped: exactly M when M does not start with U+FEFF, and never M when it does |
| CredentialVault.DecryptAcceptsOnlySealed | src/utils/crypto.ts:51-62 | a record decrypts only if it is a sealing under that password's key, and then yields the sealed text |
| CredentialVault.ShortRecordFails | src/utils/crypto.ts:53-65 | a record shorter than salt + iv + tag fails with the vault error under every password |
| CredentialVault.WrongPasswordFails | src/utils/crypto.ts:58-64 | another password fails with the vault error unless the ciphertext is also a sealing under its key |
| CredentialVault.FreshDrawsGiveDistinctRecords | src/utils/crypto.ts:32-33 | records drawn with different salts or ivs are different strings |
| CredentialVault.HashPasswordShape | src/utils/crypto.ts:68-73 | the password hash is btoa of the SHA-256 digest of the password alone (no salt), 44 characters long |
| Eip155Data.TablesContents | src/data/eip155.ts:19-31 | the mainnet table is exactly `eip155:295` (chain 295), the test table exactly `eip155:296` (chain 296) |
| Eip155Data.KeysAreCaip2 | src/data/eip155.ts:19-31 | every key is `"eip155:" + chainId` of its own entry |
| Eip155Data.ChainsIsDisjointUnion | src/data/eip155.ts:33-36 | EIP155_CHAINS holds a key iff one of the two tables does; the tables are disjoint, so nothing is overridden |
| Eip155Data.OneChainPerNetwork | src/data/eip155.ts:19-31 | each network's table has one chain, which is not in the other network's table |
| Eip155Data.MethodOf | src/data/eip155.ts:41-50 | a name maps to the enum member with that value, and to nothing when it is not a value |
| Eip155Data.MethodNamesDistinct | src/data/eip155.ts:41-50 | EIP155_METHODS has 8 pairwise-distinct values |
| Misc.ConvertHexToUtf8 | src/utils/misc.ts:7-13 | non-hex input comes back unchanged; hex input comes back UTF-8 decoded, and fails only when the decoding throws |
| Misc.SignMessagePicksFirstNonAddress | src/utils/misc.ts:20-24 | the message is the first param, in order, that is not an address, passed through convertHexToUtf8 |
| Misc.SignMessageAllAddresses | src/utils/misc.ts:20-23 | when every param is an address the message and the typed data are `undefined` |
| Misc.TypedDataPicksFirstNonAddress | src/utils/misc.ts:31-39 | the first non-address param is JSON-parsed when it is a string and returned as is otherwise |
| HelperUtils.FirstNonAddressIndex | src/utils/HelperUtils.ts:19-20 | the index found is the first, from the start, whose param is not an address; none when all are addresses |
| HelperUtils.AgreesWithMisc | src/utils/HelperUtils.ts:6-38 | the three helpers of HelperUtils.ts agree with those of misc.ts on every input |
| HederaAddress.MirrorBase | src/utils/hedera.ts:38-41 | the mirror URL depends only on the network: testnet, or the mainnet-public one |
| HederaAddress.WithHexPrefix | src/utils/hedera.ts:54-56 | the result is 0x-prefixed, and a prefixed input comes back unchanged |
| HederaAddress.GetEvmAddressFromMirror | src/utils/hedera.ts:33-69 | an address, prefixed and with source mirror, exactly when the response is ok with a non-empty `evm_address`; otherwise {null, null} |
| HederaAddress.GetSolidityAddressFromSdk | src/utils/hedera.ts:77-88 | the 0x-prefixed SDK address, or "Error calculating address" when the conversion throws |
| HederaAddress.GetEd25519EvmAddress | src/utils/hedera.ts:97-117 | the mirror's address exactly when it found one, the SDK's otherwise; the source is never null |
| Hip820Wallet.HederaMethodOf | src/lib/HIP820Wallet.ts:141-200 | a method name maps to the HIP-820 method with that name, and to none for any other name |
| Hip820Wallet.IndexOf | src/lib/HIP820Wallet.ts:159-161 | the first position at which the pattern occurs, or none when it does not occur |
| Hip820Wallet.RemoveFirst | src/lib/HIP820Wallet.ts:159-161 | `replace` with a string pattern removes only its first occurrence |
| Hip820Wallet.RemoveChainPrefix | src/lib/HIP820Wallet.ts:159-161 | removing `chainId:` from `chainId:accountId` leaves the account id |
| Hip820Wallet.ValidateParam | src/lib/HIP820Wallet.ts:106-114 | accepted iff "array" is expected and the value is an array, or `typeof` matches; otherwise INVALID_PARAMS with the message naming both types |
| Hip820Wallet.StringField | src/lib/HIP820Wallet.ts:149-150 | a named param is accepted exactly when it is a string, and is then that string |
| Hip820Wallet.DecodeBody | src/lib/HIP820Wallet.ts:151-196 | a decoded body has the kind the method's handler expects |
| Hip820Wallet.ParseParams | src/lib/HIP820Wallet.ts:141-201 | an unknown method is INVALID_METHOD; a parse without error has a known method and a fitting body; a signer account is set only for the four signed methods |
| Hip820Wallet.ParseSessionRequest | src/lib/HIP820Wallet.ts:116-215 | fails iff `shouldThrow` and parsing raised; otherwise returns the event's id, topic, method and chain with what was assigned |
| Hip820Wallet.GetNodeAddressesParams | src/lib/HIP820Wallet.ts:142-145 | `hedera_getNodeAddresses` is INVALID_PARAMS exactly when its params are truthy |
| Hip820Wallet.ValidationBeforeDecoding | src/lib/HIP820Wallet.ts:147-197 | a required field that is not a string gives INVALID_PARAMS before any decoder is consulted |
| Hip820Wallet.ParseSignedRequest | src/lib/HIP820Wallet.ts:154-197 | a well-formed signed request yields the account with `chainId:` removed and the decoded body |
| Hip820Wallet.PartialAssignmentKept | src/lib/HIP820Wallet.ts:176-205 | when the body decoder throws after the account parsed, a non-throwing parse still returns the account |
| Hip820Wallet.SplitJoin | src/lib/HIP820Wallet.ts:280-283 | splitting a comma-join gives the parts back when none contains a comma |
| Hip820Wallet.QueryResponseRoundTrip | src/lib/HIP820Wallet.ts:278-290 | a single query result is its base64; an array splits at commas into each result's base64, in order |
| Hip820Wallet.Handle | src/lib/HIP820Wallet.ts:235-315 | every handler that returns gives a JSON-RPC result carrying the request id |
| Hip820Wallet.ApproveSessionRequest | src/lib/HIP820Wallet.ts:217-223 | a parse error is re-thrown as is; otherwise it throws only what the signer throws; a result carries the request id |
| Hip820Wallet.NodeAddressesListed | src/lib/HIP820Wallet.ts:235-247 | without params, `hedera_getNodeAddresses` answers with the request id and an object whose only field `nodes` lists every node account id as a string, in order |
| Hip820Wallet.RejectSessionRequest | src/lib/HIP820Wallet.ts:225-229 | a JSON-RPC error with the request id and the USER_REJECTED message, whatever the params |
| Eip155Wallet.DeleteProperty | src/lib/eip155-wallet.ts:164 | `delete` removes the field from an object and throws on `undefined`/`null` |
| Eip155Wallet.First | src/lib/eip155-wallet.ts:181 | `params[0]` is the first item of a non-empty array and throws on `undefined`/`null` |
| Eip155Wallet.RpcUrl | src/lib/eip155-wallet.ts:178-180 | the RPC URL of a chain in EIP155_CHAINS; reading it for any other chain throws |
| Eip155Wallet.Respond | src/lib/eip155-wallet.ts:141-152 | a result, or an error with the thrown Error's message or the branch's fallback, always with the request id |
| Eip155Wallet.Wait | src/lib/eip155-wallet.ts:188 | `txResponse.wait()` fails for every response that is not an object |
| Eip155Wallet.ApproveSessionRequest | src/lib/eip155-wallet.ts:134-224 | throws exactly for a method outside EIP155_METHODS, with INVALID_METHOD; every supported method answers with the request id |
| Eip155Wallet.RejectSessionRequest | src/lib/eip155-wallet.ts:226-230 | a JSON-RPC error with the request id and the USER_REJECTED message |
| Eip155Wallet.AliasesShareImplementation | src/lib/eip155-wallet.ts:139-156 | `personal_sign` answers as `eth_sign`, and `_v3`/`_v4` answer as `eth_signTypedData` |
| Eip155Wallet.SignsFirstNonAddress | src/lib/eip155-wallet.ts:139-152 | the message signed is the first non-address param, hex decoded |
| Eip155Wallet.TypedDataDropsDomainType | src/lib/eip155-wallet.ts:157-166 | typed data is signed with `EIP712Domain` removed from `types` |
| Eip155Wallet.TypedDataWithoutTypesFails | src/lib/eip155-wallet.ts:158-164 | typed data without `types` fails on the `delete`, before signing |
| Eip155Wallet.SignTransactionDropsFrom | src/lib/eip155-wallet.ts:97-106 | the populated transaction is signed without `from` |
| Eip155Wallet.UnknownChainIsErrorResponse | src/lib/eip155-wallet.ts:175-209 | on a chain not in EIP155_CHAINS the send and sign-transaction methods answer with an error response |
| Eip155Wallet.SendResult | src/lib/eip155-wallet.ts:181-194 | an object response that settles yields its `hash`; a string response ends in the "wait is not a function" error |
| Sessions.NewerNamespacesShape | src/store/hedera-wallet-provider.tsx:300-329 | one EVM chain for the network, exactly `hedera:<network>`, one `chain:address` account per chain, the fixed events |
| Sessions.OlderNamespacesShape | src/store/HederaWalletProvider.tsx:122-158 | the EVM chains are the keys of the network's table, one account per chain; the hedera chain is `hedera:<network>`; the fixed events |
| Sessions.ProvidersOfferSameChains | src/store/HederaWalletProvider.tsx:122-125 | with EIP155_METHODS as the EVM methods, the two providers offer the same namespaces |
| Sessions.Routing | src/store/hedera-wallet-provider.tsx:387-407 | an approve goes to the EVM signer iff the method is in the EVM set, else to the HIP-820 signer; a reject is USER_REJECTED; a response carries the request id |
| Sessions.SignerIsolation | src/store/hedera-wallet-provider.tsx:387-407 | for an EVM-set method the answer depends on the EVM signer alone, for any other method on the HIP-820 side alone, and a reject consults neither |
| Sessions.WhenApproveThrows | src/store/hedera-wallet-provider.tsx:392-402 | the EVM approve throws exactly for a method outside its switch; the HIP-820 approve throws on a parse error |
| WalletProvider.ReadWalletData | src/store/hedera-wallet-provider.tsx:245-254 | reading the parsed wallet data throws exactly when it is `undefined` or `null` |
| WalletProvider.ReadWalletDataJson | src/store/hedera-wallet-provider.tsx:172-180 | the wallet data read back from its JSON is the wallet data that was stored |
| WalletProvider.Mount | src/store/hedera-wallet-provider.tsx:130-133 | on mount the provider is locked and uninitialized, and has stored credentials iff a vault is stored |
| WalletProvider.InitializeIsGuarded | src/store/hedera-wallet-provider.tsx:164-166 | initialize is a no-op once initialized or connected |
| WalletProvider.CreateWalletsKeepsStorage | src/store/hedera-wallet-provider.tsx:187-223 | the steps after the vault write change neither storage |
| WalletProvider.VaultPersistedBeforeValidation | src/store/hedera-wallet-provider.tsx:171-190 | with a password the sealed wallet data and the hash are stored whatever the credentials, and the same password opens the record to the stringified data |
| WalletProvider.MissingCredentialsReported | src/store/hedera-wallet-provider.tsx:187-231 | a missing credential shows the error modal and leaves the provider uninitialized, as locked as before, unconnected |
| WalletProvider.InitializeOutcome | src/store/hedera-wallet-provider.tsx:164-231 | initialized iff all four credentials are given and both signers and the connection are created; then unlocked, holding them, with the mirror-or-SDK EVM address |
| WalletProvider.UnlockFailsWithoutChange | src/store/hedera-wallet-provider.tsx:236-263 | unlock returns false, changing nothing, exactly when there is no record or decrypting, parsing or reading throws |
| WalletProvider.UnlockKeepsVault | src/store/hedera-wallet-provider.tsx:247-259 | unlock never rewrites local storage; on success it stores the password hash and unlocks |
| WalletProvider.UnlockCanLeaveUninitialized | src/store/hedera-wallet-provider.tsx:244-259 | with stored credentials that are incomplete, unlock still returns true and unlocks, leaving the provider uninitialized |
| WalletProvider.LockClears | src/store/hedera-wallet-provider.tsx:268-277 | lock drops both signers, the connection and the hash, and ends uninitialized and locked with the vault untouched |
| WalletProvider.InitializeEstablishes | src/store/hedera-wallet-provider.tsx:164-231 | initialize succeeds exactly when the credentials are complete and both signers and the connection can be created, and then holds exactly what it created |
| WalletProvider.ReinitializeFromData | src/store/hedera-wallet-provider.tsx:187-223 | without a password, initialize from ready data holds what it creates and leaves both storages as they were |
| WalletProvider.UnlockOpensVault | src/store/hedera-wallet-provider.tsx:244-259 | when the vault opens to stored wallet data, unlock re-runs initialize with that data, stores the password hash, unlocks and returns true |
| WalletProvider.UnlockRestores | src/store/hedera-wallet-provider.tsx:236-277 | locking a provider initialized from the vault's data and unlocking it with the password, in an environment whose signers, WalletKit and mirror node are asked afresh, returns true with the same network, account ids and storages; it is initialized iff the new environment can create the signers and the connection, then holding those; the same handles and EVM address come back only when the environment answers as before |
| WalletProvider.LockThenUnlockRestores | src/store/hedera-wallet-provider.tsx:171-259 | initialize with a password, lock, unlock with it in a fresh environment: true, with the same network, account ids and storages, initialized iff that environment can create the signers and the connection; the same handles only when it answers as before |
| WalletProvider.DisconnectOutcome | src/store/hedera-wallet-provider.tsx:452-476 | fails without a connection; otherwise disconnects every session then every pairing with USER_DISCONNECTED and ends uninitialized, locked, unconnected |
| WalletProvider.PairOutcome | src/store/hedera-wallet-provider.tsx:478-483 | pair fails without a connection and otherwise pairs with the URI |
| WalletProvider.ProposalOutcome | src/store/hedera-wallet-provider.tsx:298-356 | a reject sends USER_REJECTED_METHODS; an approve sends the namespaces built from the provider's own, or shows a Session Error |
| WalletProvider.RequestOutcome | src/store/hedera-wallet-provider.tsx:373-433 | without a connection or a signer, a Request Error modal and nothing sent; otherwise a routed response is sent once on the request's topic carrying its id, a decline always sends USER_REJECTED, and only an approve that throws sends nothing |
| WalletProvider.ProposalWithoutHandles | src/store/hedera-wallet-provider.tsx:284-297 | without the connection or a signer the proposal handler throws before prompting and nothing changes |
| WalletProvider.InitializeKeepsConsistent | src/store/hedera-wallet-provider.tsx:154-234 | initialize keeps "initialized implies a connection and both signers" |
| WalletProvider.UnlockKeepsConsistent | src/store/hedera-wallet-provider.tsx:236-266 | unlock keeps the same invariant |
| WalletProvider.LifecycleKeepsConsistent | src/store/hedera-wallet-provider.tsx:268-483 | lock, disconnect and pair keep the same invariant |
| WalletProvider.ProposalKeepsConsistent | src/store/hedera-wallet-provider.tsx:284-368 | the proposal handler keeps the same invariant |
| WalletProvider.RequestKeepsConsistent | src/store/hedera-wallet-provider.tsx:373-433 | the request handler keeps the same invariant |
| WalletProvider.WalletProvider.constructor | src/store/hedera-wallet-provider.tsx:130-133 | the mounted provider is in the mount state |
| WalletProvider.WalletProvider.Initialize | src/store/hedera-wallet-provider.tsx:154-234 | initialize, vault write through CredentialVault.Encrypt included, ends in the initialize step's state |
| WalletProvider.WalletProvider.CreateWallets | src/store/hedera-wallet-provider.tsx:187-223 | the credential check, signer creation and connection end in that step's state |
| WalletProvider.WalletProvider.Adopt | src/store/hedera-wallet-provider.tsx:210-218 | the signers, account ids and EVM address are set, nothing else |
| WalletProvider.WalletProvider.Connect | src/store/hedera-wallet-provider.tsx:220-223 | the connection is created and the provider marked initialized and unlocked, or the error modal opens |
| WalletProvider.WalletProvider.Unlock | src/store/hedera-wallet-provider.tsx:236-266 | unlock ends in the unlock step's state and returns its flag |
| WalletProvider.WalletProvider.Lock | src/store/hedera-wallet-provider.tsx:268-277 | lock ends in the lock step's state |
| WalletProvider.WalletProvider.Disconnect | src/store/hedera-wallet-provider.tsx:452-476 | disconnects every session, then every pairing, and ends in the disconnect step's state |
| WalletProvider.WalletProvider.DisconnectTopics | src/store/hedera-wallet-provider.tsx:459-472 | each loop appends one USER_DISCONNECTED `disconnectSession` per topic, in order, and changes nothing else |
| WalletProvider.WalletProvider.Pair | src/store/hedera-wallet-provider.tsx:478-483 | pair ends in the pair step's state |
| WalletProvider.WalletProvider.OnSessionProposal | src/store/hedera-wallet-provider.tsx:284-368 | the proposal handler and the operator's answer end in the proposal step's state |
| WalletProvider.WalletProvider.OnSessionRequest | src/store/hedera-wallet-provider.tsx:373-433 | the request handler and the operator's answer end in the request step's state |
| LegacyWalletProvider.Mount | src/store/HederaWalletProvider.tsx:54-58 | on mount the provider is uninitialized, unconnected, on testnet |
| LegacyWalletProvider.InitializeIsGuarded | src/store/HederaWalletProvider.tsx:66-70 | initialize is a no-op once initialized (a held connection does not stop it) and otherwise sets the network first |
| LegacyWalletProvider.InitializeOutcome | src/store/HederaWalletProvider.tsx:60-92 | initialized iff both signers are made from the one key and a connection is held or created; a held connection is kept; each failure is one alert |
| LegacyWalletProvider.ReinitializeReusesConnection | src/store/HederaWalletProvider.tsx:81-85 | after disconnect, initialize reuses the same connection without creating one |
| LegacyWalletProvider.ProposalOutcome | src/store/HederaWalletProvider.tsx:109-166 | a decline sends USER_REJECTED_METHODS and then the approval still follows; a build failure is alerted |
| LegacyWalletProvider.ProposalWithoutSigners | src/store/HederaWalletProvider.tsx:100-108 | without the connection or a signer the handler throws and nothing changes |
| LegacyWalletProvider.RequestOutcome | src/store/HederaWalletProvider.tsx:176-215 | a missing connection or signer is alerted with its message and nothing else changes; otherwise the signer's response is sent once on the topic with the request id and nothing alerted, or an approve that throws is alerted once and nothing sent; a decline answers USER_REJECTED |
| LegacyWalletProvider.DisconnectOutcome | src/store/HederaWalletProvider.tsx:248-270 | fails without a connection; otherwise disconnects every session then every pairing and clears only `isInitialized` |
| LegacyWalletProvider.PairOutcome | src/store/HederaWalletProvider.tsx:272-277 | pair fails without a connection and otherwise pairs with the URI |
| LegacyWalletProvider.LifecycleKeepsConsistent | src/store/HederaWalletProvider.tsx:60-277 | initialize, disconnect and pair keep "initialized implies a connection and both signers" |
| LegacyWalletProvider.ProposalKeepsConsistent | src/store/HederaWalletProvider.tsx:97-169 | the proposal handler keeps the same invariant |
| LegacyWalletProvider.RequestKeepsConsistent | src/store/HederaWalletProvider.tsx:174-219 | the request handler keeps the same invariant |
| LegacyWalletProvider.LegacyWalletProvider.constructor | src/store/HederaWalletProvider.tsx:54-58 | the mounted provider is in the mount state |
| LegacyWalletProvider.LegacyWalletProvider.Initialize | src/store/HederaWalletProvider.tsx:60-92 | initialize ends in the initialize step's state |
| LegacyWalletProvider.LegacyWalletProvider.OnSessionProposal | src/store/HederaWalletProvider.tsx:97-169 | the proposal handler ends in the proposal step's state |
| LegacyWalletProvider.LegacyWalletProvider.OnSessionRequest | src/store/HederaWalletProvider.tsx:174-219 | the request handler ends in the request step's state |
| LegacyWalletProvider.LegacyWalletProvider.Disconnect | src/store/HederaWalletProvider.tsx:248-270 | disconnects every session, then every pairing, and ends in the disconnect step's state |
| LegacyWalletProvider.LegacyWalletProvider.DisconnectTopics | src/store/HederaWalletProvider.tsx:253-268 | each loop appends one USER_DISCONNECTED `disconnectSession` per topic, in order, and changes nothing else |
| LegacyWalletProvider.LegacyWalletProvider.Pair | src/store/HederaWalletProvider.tsx:272-277 | pair ends in the pair step's state |

## Left out

- The cryptographic primitives are not computed. PBKDF2, AES-GCM, SHA-256 and the UTF-8 codecs are function values. The proofs rely only on the facts in `CredentialVault.Sound`, and `CredentialVault.SoundIsSatisfiable` shows those facts are consistent.
- The random salt and iv of `encrypt` are parameters.
- Everything a provider calls outside the model is collected in an environment (`WalletProvider.Env`, `LegacyWalletProvider.LegacyEnv`) of pure functions, so one environment answers repeated calls alike. The source builds a new WalletKit and queries the mirror node again on every initialize. `WalletProvider.UnlockRestores` and `WalletProvider.LockThenUnlockRestores` therefore take a second environment for the unlock, sharing only the cipher and the JSON codec with the first.
- CredentialVault.WrongPasswordFails: stated with the premise that the stored ciphertext is not also a sealing under the other password's key. That is what AES-GCM authenticity provides; it cannot be assumed outright without contradicting fixed-length keys.
- CredentialVault.Decrypt: an exception that `crypto.subtle.deriveKey` itself could raise is not modelled. It would be caught into the same error.
- `JSON.stringify` / `JSON.parse` of the wallet data are parameters. Their round trip is the assumption `WalletProvider.JsonRoundTrip`, and `WalletProvider.StringifiesObjects` assumes the text begins with `{`.
- JavaScript strings may hold lone surrogates, which `TextEncoder` turns into U+FFFD. Dafny strings hold only Unicode scalar values, so such plaintexts and passwords are not modelled.
- WalletProvider.ReadWalletData: a vault only ever holds what `initialize` stringified, where every field is a string and the network is "testnet" or "mainnet". A record written by other code diverges from the source in two ways:
  - a field that is not a string reads as the empty string, so a truthy non-string (a number, say) fails the credential check in the model but passes it in the source;
  - a network other than "testnet" reads as mainnet, while the source stores the raw value with `setNetwork` and passes `hedera:<value>` verbatim to `HIP820Wallet.init`.
- The texts of TypeErrors raised by the JavaScript engine are fixed strings. For example, reading a property of `undefined` or `null` gives `Rpc.PROPERTY_OF_NOTHING`, without the engine's "(reading 'filter')" suffix. These texts reach the EVM signer's error responses.
- Every call on the WalletKit connection (approve, reject, respond, disconnect, pair) is treated as succeeding. It is logged in `sent`, and the relay's own bookkeeping is not modelled. `createWalletKit` and `WalletKit.init` are an input that may fail.
- React rendering, the modal's JSX, `console` output and listener registration are not modelled:
  - a modal is its title, text and kind;
  - an `alert` is a logged `LegacyWalletProvider.Alert` holding the thrown value, not its display text;
  - each handler, together with the operator's answer to its prompt, is one sequential step.
- Concurrency is not modelled: interleaved async handlers, stale closures over React state, and the delayed state updates of `useState`.
- The `alert(error.message)` calls inside the EVM signer's branches are not modelled.
- `formatJsonRpcError` codes are not modelled. A response is its id and a result or message.
- The EVM method list of the newer provider (`Eip155JsonRpcMethod` from @hashgraph/hedera-wallet-connect) is a parameter. Its EVM chain ids (`HederaChainDefinition.EVM`) are taken as `eip155:296` / `eip155:295`.
- The signer libraries the newer provider imports are taken to behave like src/lib/eip155-wallet.ts and src/lib/HIP820Wallet.ts.
- The modules the older provider imports (`../lib/EIP155Wallet`, `../lib/HIP820Wallet`, `../data/EIP155Data`) are not part of this model. They are taken to be src/lib/eip155-wallet.ts, src/lib/HIP820Wallet.ts and src/data/eip155.ts.
- `EIP155Wallet.init` and `HIP820Wallet.init` are parameters that may throw. Neither is modelled inside: not `Wallet.createRandom` for an empty key, and not `Client.forName`.
- The ethers wallet and provider calls are parameters that may throw: `signMessage`, `signTypedData`, `populateTransaction`, `signTransaction`, `sendTransaction`, `broadcastTransaction`, `wait`.
- The Hedera SDK objects and calls are parameters or opaque handles: the transaction and query decoders, `AccountId.fromString`, `Buffer.from(·, "base64")`, `wallet.call`, `wallet.sign`, `executeWithSigner`, `getNetwork`, and the signature-map encoding.
- `transactionToTransactionBody` in src/utils/misc.ts is a private SDK call and is not modelled.
- The mirror-node `fetch` is an input that returns a thrown error, a non-ok status or the `evm_address` field. `AccountId.fromString(…).toSolidityAddress()` is an input that may fail.
- `delete` is modelled on values, so an aliased object whose field is deleted is not tracked.
- Numbers in params are integers, and floating point never enters the logic.
