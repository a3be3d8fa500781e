# ripoff: MusicBrainz client layer

This project models the MusicBrainz client layer of `ripoff`, a compact-disc ripper, in Dafny. That layer is `src/mb.rs`. It covers three things:

- how a release's ordered artist credits are flattened into one display string (`Release::artist_string`);
- the `Client` object, which holds the web-service root URL and the User-Agent it sends, and the GET request that `Client::get` builds;
- the path that `DiscId::lookup` asks the service for.

The project has three modules:

- `Wrappers` (`wrappers.dfy`): `Option` and `Result`, standing in for Rust's types.
- `MbRecords` (`records.dfy`): the records of a disc-id lookup response and the artist-string construction. `JoinCredits` is `artist_string` over a credit list, defined as the source computes it: the `flat_map` over credits that yields name then join phrase (`CreditPieces`), followed by `collect` (`Concat`). `Release.ArtistString` applies it to the release's credits.
- `MbClient` (`client.dfy`): a `Request` datatype standing in for `ureq::Request` (verb, URL, headers in the order they were set), the `Client` class with its two string fields, and the disc-id lookup.

In the lookup, the HTTP transport (`.call()`) and JSON decoding (`.into_json()`) are passed in as function parameters. Each of them may fail.

The package name, version and homepage come from `env!` at compile time. They are not part of this model's inputs, so the `Client` constructor takes them as a `PackageMetadata` parameter.

The header value a request carries for a name is the value set for that name most recently. `SetHeader` states this, standing in for `ureq`'s `Request::set`.

## Model

| member | source | states |
|---|---|---|
| `MbRecords.CreditPieces` | src/mb.rs:82-84 | the flat_map yields exactly two pieces per credit, in credit order: the credit's name at position 2k, then its join phrase at 2k+1 |
| `MbRecords.CreditPiecesAppend` | src/mb.rs:82-84 | the pieces of a concatenated credit list are the pieces of the first list followed by those of the second |
| `MbRecords.ConcatAppend` | src/mb.rs:85 | collecting string slices into a String distributes over concatenation of the slice sequence |
| `MbRecords.ConcatPiecesLength` | src/mb.rs:81-86 | the collected string is as long as the sum over all credits of the lengths of name and join phrase, so nothing is added between pieces |
| `MbRecords.JoinCredits` | src/mb.rs:81-86 | the artist string of an empty credit list is the empty string; its length is the sum of `|name| + |joinphrase|` over all credits |
| `MbRecords.JoinCreditsCons` | src/mb.rs:81-86 | a credit followed by more credits yields its name, then its join phrase, then the artist string of the rest, with no separator |
| `MbRecords.JoinCreditsAppend` | src/mb.rs:82-85 | the artist string of credits `a + b` is the artist string of `a` followed by that of `b` |
| `MbRecords.JoinCreditsAt` | src/mb.rs:81-86 | every credit k appears in place: the joined credits before it, then its name and join phrase, then the joined credits after it |
| `MbRecords.Release.ArtistString` | src/mb.rs:81-86 | the release's artist string is `JoinCredits` of its `artistCredit`: empty for a release with no credits, and as long as the sum of `|name| + |joinphrase|` over its credits |
| `MbRecords.AirAndVarda` | src/mb.rs:81-86 | a release credited ("Air", " & ") then ("Varda", "") has the artist string exactly "Air & Varda" |
| `MbClient.DefaultUserAgent` | src/mb.rs:4-11 | the default User-Agent is name, "/", version, " ( ", homepage, " )": when the name has no "/", the text before the first "/" is the package name and the text after it is the version followed by " ( ", the homepage and " )" |
| `MbClient.Client.constructor` | src/mb.rs:19-24 | a new client has root URL "https://musicbrainz.org/ws/2" and the default User-Agent |
| `MbClient.Client.SetRootUrl` | src/mb.rs:26-28 | the root URL becomes the given one; the User-Agent is unchanged |
| `MbClient.Client.SetUserAgent` | src/mb.rs:30-32 | the User-Agent becomes the given one; the root URL is unchanged |
| `MbClient.NewGet` | src/mb.rs:35 | `ureq::get` makes a GET request for the URL that carries no header yet |
| `MbClient.SetHeader` | src/mb.rs:36-37 | after `set`, the header carries the new value; every other header keeps its value; verb and URL are unchanged |
| `MbClient.Client.Get` | src/mb.rs:34-38 | a GET for root URL + "/" + path-and-query, with User-Agent equal to the client's current User-Agent, Accept equal to "application/json", and no other header; as a function it leaves the client unchanged |
| `MbClient.GetPathRoundTrip` | src/mb.rs:35 | the path-and-query can be read back from the URL `get` builds, as the part below the root URL |
| `MbClient.GetInjective` | src/mb.rs:35 | one client never sends two different path-and-queries to the same URL |
| `MbClient.LookupPath` | src/mb.rs:50-53 | the lookup path gives back its disc id between "discid/" and "?inc=artist-credits+recordings+labels"; for a disc id without "?", the query after the first "?" is exactly "inc=artist-credits+recordings+labels" |
| `MbClient.LookupPathInjective` | src/mb.rs:53 | distinct disc ids are looked up at distinct paths |
| `MbClient.LookupIdFromUrl` | src/mb.rs:52-53 | the URL of the request a lookup builds lies below the client's root URL, and the disc id can be read back from the path below it |
| `MbClient.Lookup` | src/mb.rs:49-58 | the request sent is exactly what `get` builds for the lookup path: a GET for root URL + "/discid/" + id + "?inc=artist-credits+recordings+labels", with the client's User-Agent, Accept "application/json" and no other header; a transport failure is the result; otherwise a decoding failure is; otherwise the decoded record is |

## Left out

- HTTP transport and JSON decoding (`.call()`, `.into_json()`, src/mb.rs:54-55) are network I/O in foreign libraries. They are parameters of `Lookup`, and which status codes `ureq` turns into errors is part of that parameter.
- The `Debug` and `Deserialize` derives and the serde renaming attributes (src/mb.rs:41-169) are printing and decoding concerns with no logic to verify.
- Record fields: only a release's `artistCredit` is read by a modelled operation. The model also keeps the fields that give the lookup response its shape and identify its parts, though nothing modelled reads them. These are the disc id and its releases; a release's barcode, id, media and title; a medium's format, position, title, track count and tracks; and a track's id, number, position and title.
- Dropped record fields: a release's asin, country, cover-art-archive, date, disambiguation, label info, packaging, packaging id and quality; an artist credit's `artist`; a medium's format id and track offset; and a track's artist credits and recording. The whole `Artist`, `CoverArtArchive`, `LabelInfo`, `Label` and `Recording` records are dropped with them.
- `MbClient.SetHeader`: header names are compared exactly. `ureq` may compare them ignoring ASCII case; the two names `get` sets differ either way.
- The real values of the package name, version and homepage come from `env!` and are not known here. They are a constructor parameter instead.
- URL escaping: `format!` inserts the disc id and path as they are, and so does the model. That is why the query property of `LookupPath` needs a disc id without "?".
- `src/main.rs` (CLI parsing, reading the disc's table of contents, printing the lookup result) is I/O plumbing and is not part of this model.
- The wider ripping pipeline is not in `src/mb.rs` and is not part of this model: release and medium matching, filename sanitizing, output layout, the sector read and encode loop, and diagnostics draining.
- In `Release::artist_string`, every credit carries a join phrase string, because the record type has one. A credit written without a join phrase is modelled with the empty join phrase.
