/**
  The sample-pattern library: a fixed table of forty examples grouped in
  eight categories, the list of categories in order of first appearance, and
  the per-category filter.
*/
module Samples {
  import opened Js

  datatype Sample = Sample(
    category: string,
    name: string,
    description: string,
    pattern: string,
    flags: string,
    testString: string)

  // ---------------------------------------------------------------------------
  // The table

  const SampleCount := 40
  const CategoryCount := 8

  /** The eight category titles, in table order. */
  function CategoryName(k: nat): string
    requires k < CategoryCount
  {
    match k
    case 0 => "\U{1F7E2} Basics"
    case 1 => "\U{2705} Validation"
    case 2 => "\U{1F4E6} Extraction"
    case 3 => "\U{1F52C} Advanced"
    case 4 => "\U{1F310} Web Dev"
    case 5 => "\U{1F4CA} Data & Logs"
    case 6 => "\U{1F30D} International"
    case _ => "\U{1F504} Replace"
  }

  /** The table is grouped by category: five entries each, except six
      advanced and four international ones. */
  function CategoryIndex(i: nat): (k: nat)
    requires i < SampleCount
    ensures k < CategoryCount
  {
    if i < 5 then 0
    else if i < 10 then 1
    else if i < 15 then 2
    else if i < 21 then 3
    else if i < 26 then 4
    else if i < 31 then 5
    else if i < 35 then 6
    else 7
  }

  /** The display name of table entry `i`. */
  function Name(i: nat): string
    requires i < SampleCount
  {
    match i
    case 0 => "Match Words"
    case 1 => "Match Numbers"
    case 2 => "Match Lines Starting With"
    case 3 => "Match Sentences"
    case 4 => "Match Quoted Strings"
    case 5 => "Email Address"
    case 6 => "URL (HTTP/HTTPS)"
    case 7 => "Phone Number"
    case 8 => "Credit Card Number"
    case 9 => "Strong Password"
    case 10 => "IPv4 Addresses"
    case 11 => "Dates (YYYY-MM-DD)"
    case 12 => "Hex Color Codes"
    case 13 => "Hashtags"
    case 14 => "Price Amounts"
    case 15 => "Capture Groups"
    case 16 => "Named Groups"
    case 17 => "Positive Lookahead"
    case 18 => "Negative Lookahead"
    case 19 => "Non-Greedy Match"
    case 20 => "Backreference: Repeated Words"
    case 21 => "HTML Tags"
    case 22 => "CSS Properties"
    case 23 => "JavaScript Import"
    case 24 => "JSON Keys"
    case 25 => "API Endpoint Paths"
    case 26 => "Log Levels"
    case 27 => "Timestamps"
    case 28 => "CSV Fields"
    case 29 => "Stack Trace Files"
    case 30 => "UUID v4"
    case 31 => "Unicode Letters"
    case 32 => "Emoji Detection"
    case 33 => "CJK Characters"
    case 34 => "European Postal Codes"
    case 35 => "Strip HTML Tags"
    case 36 => "Collapse Whitespace"
    case 37 => "camelCase \U{2192} kebab-case"
    case 38 => "Mask Sensitive Data"
    case _ => "Format Markdown Links"
  }

  /** The one-line description of table entry `i`. */
  function Description(i: nat): string
    requires i < SampleCount
  {
    match i
    case 0 => "Find every word in a sentence"
    case 1 => "Extract all integers from text"
    case 2 => "Find lines starting with a dash (list items)"
    case 3 => "Extract complete sentences ending with punctuation"
    case 4 => "Find text inside double quotes"
    case 5 => "Validate standard email format"
    case 6 => "Match web URLs with protocol"
    case 7 => "Match international phone formats"
    case 8 => "Detect common card number patterns"
    case 9 => "Check for 8+ chars with upper, lower, digit, special"
    case 10 => "Find all IP addresses in logs"
    case 11 => "Extract ISO-format dates"
    case 12 => "Match CSS hex colors (3 and 6 digit)"
    case 13 => "Extract social media hashtags"
    case 14 => "Find currency amounts in various formats"
    case 15 => "Extract first and last name separately"
    case 16 => "Parse dates with labeled year, month, day"
    case 17 => "Match words followed by a colon (keys in key:value)"
    case 18 => "Match numbers NOT followed by px or em"
    case 19 => "Greedy vs lazy \U{2014} match shortest HTML tags"
    case 20 => "Find accidentally duplicated words"
    case 21 => "Match all HTML opening and closing tags"
    case 22 => "Extract CSS property: value pairs"
    case 23 => "Parse ES6 import statements"
    case 24 => "Extract keys from JSON objects"
    case 25 => "Match REST API routes with path params"
    case 26 => "Extract log severity levels"
    case 27 => "Match ISO 8601 datetime strings"
    case 28 => "Parse comma-separated values (handles quoted fields)"
    case 29 => "Extract file paths and line numbers from errors"
    case 30 => "Match UUID/GUID identifiers"
    case 31 => "Match words in any language (Unicode-aware)"
    case 32 => "Find all emoji characters in text"
    case 33 => "Match Chinese, Japanese, or Korean characters"
    case 34 => "Match postal codes from multiple countries"
    case 35 => "Remove all HTML markup, keep text only"
    case 36 => "Reduce multiple spaces/tabs to a single space"
    case 37 => "Convert camelCase to kebab-case CSS format"
    case 38 => "Replace emails and phone numbers with [REDACTED]"
    case _ => "Convert raw URLs to Markdown link format"
  }

  /** The pattern source of table entry `i`. */
  function Pattern(i: nat): string
    requires i < SampleCount
  {
    match i
    case 0 => "\\w+"
    case 1 => "\\d+"
    case 2 => "^- .+$"
    case 3 => "[A-Z][^.!?]*[.!?]"
    case 4 => "\"([^\"]*)\""
    case 5 => "[a-zA-Z0-9._%+-]+@[a-zA-Z0-9.-]+\\.[a-zA-Z]{2,}"
    case 6 => "https?://[\\w\\-._~:/?#\\[\\]@!$&'()*+,;=%]+"
    case 7 => "\\+?\\d{1,3}[-.\\s]?\\(?\\d{1,4}\\)?[-.\\s]?\\d{1,4}[-.\\s]?\\d{1,9}"
    case 8 => "\\b(?:\\d[ -]*?){13,19}\\b"
    case 9 => "^(?=.*[a-z])(?=.*[A-Z])(?=.*\\d)(?=.*[@$!%*?&])[A-Za-z\\d@$!%*?&]{8,}$"
    case 10 => "\\b(?:\\d{1,3}\\.){3}\\d{1,3}\\b"
    case 11 => "\\d{4}[-/]\\d{2}[-/]\\d{2}"
    case 12 => "#(?:[0-9a-fA-F]{3}){1,2}\\b"
    case 13 => "#[a-zA-Z0-9_]+"
    case 14 => "[$\U{20AC}\U{A3}\U{A5}]\\s?\\d+(?:[.,]\\d{1,2})?|\\d+(?:[.,]\\d{1,2})?\\s?(?:USD|EUR|GBP|JPY)"
    case 15 => "(\\w+)\\s(\\w+)"
    case 16 => "(?<year>\\d{4})-(?<month>\\d{2})-(?<day>\\d{2})"
    case 17 => "\\w+(?=:)"
    case 18 => "\\d+(?!px|em)"
    case 19 => "<.+?>"
    case 20 => "\\b(\\w+)\\s+\\1\\b"
    case 21 => "<\\/?[a-z][a-z0-9]*[^>]*>"
    case 22 => "([\\w-]+)\\s*:\\s*([^;]+)"
    case 23 => "import\\s+(?:{([^}]+)}|([\\w]+))\\s+from\\s+['\"]([^'\"]+)['\"]"
    case 24 => "\"(\\w+)\"\\s*:"
    case 25 => "(?:GET|POST|PUT|DELETE|PATCH)\\s+\\/[\\w/:?&=.-]+"
    case 26 => "\\[(INFO|WARN|ERROR|DEBUG|FATAL)\\]"
    case 27 => "\\d{4}-\\d{2}-\\d{2}T\\d{2}:\\d{2}:\\d{2}(?:\\.\\d+)?(?:Z|[+-]\\d{2}:?\\d{2})"
    case 28 => "(?:^|,)(\"(?:[^\"]|\"\")*\"|[^,]*)"
    case 29 => "(?:at\\s+)?([\\w./\\\\-]+\\.(?:js|ts|py|java|rb))(?::(\\d+))?"
    case 30 => "[0-9a-f]{8}-[0-9a-f]{4}-4[0-9a-f]{3}-[89ab][0-9a-f]{3}-[0-9a-f]{12}"
    case 31 => "[\\p{L}]+"
    case 32 => "[\\p{Emoji_Presentation}\\p{Extended_Pictographic}]"
    case 33 => "[\\u4e00-\\u9fff\\u3040-\\u309f\\u30a0-\\u30ff\\uac00-\\ud7af]+"
    case 34 => "\\b(?:\\d{5}(?:-\\d{4})?|[A-Z]{1,2}\\d[A-Z\\d]?\\s?\\d[A-Z]{2}|\\d{4}\\s?[A-Z]{2}|\\d{3}-\\d{4})\\b"
    case 35 => "<[^>]+>"
    case 36 => "\\s{2,}"
    case 37 => "([a-z])([A-Z])"
    case 38 => "[a-zA-Z0-9._%+-]+@[a-zA-Z0-9.-]+\\.[a-zA-Z]{2,}|\\+?\\d[\\d\\s.-]{7,}\\d"
    case _ => "(https?://[^\\s]+)"
  }

  /** The flag string of table entry `i`. */
  function Flags(i: nat): string
    requires i < SampleCount
  {
    match i
    case 0 => "g"
    case 1 => "g"
    case 2 => "gm"
    case 3 => "g"
    case 4 => "g"
    case 5 => "g"
    case 6 => "gi"
    case 7 => "g"
    case 8 => "g"
    case 9 => "gm"
    case 10 => "g"
    case 11 => "g"
    case 12 => "gi"
    case 13 => "g"
    case 14 => "g"
    case 15 => "g"
    case 16 => "g"
    case 17 => "g"
    case 18 => "g"
    case 19 => "g"
    case 20 => "gi"
    case 21 => "gi"
    case 22 => "g"
    case 23 => "g"
    case 24 => "g"
    case 25 => "g"
    case 26 => "g"
    case 27 => "g"
    case 28 => "g"
    case 29 => "g"
    case 30 => "gi"
    case 31 => "gu"
    case 32 => "gu"
    case 33 => "g"
    case 34 => "g"
    case 35 => "g"
    case 36 => "g"
    case 37 => "g"
    case 38 => "g"
    case _ => "g"
  }

  /** The sample input of table entry `i`. */
  function TestString(i: nat): string
    requires i < SampleCount
  {
    match i
    case 0 => "Hello World! Regex is awesome 123."
    case 1 => "Order #4521 has 3 items totaling $149.99 shipped on 2024-01-15."
    case 2 => "Shopping list:\n- Milk\n- Eggs\n- Bread\nDon't forget!\n- Butter"
    case 3 => "Hello there! How are you? I am fine. Thanks for asking! See you later."
    case 4 => "He said \"hello\" and she replied \"goodbye\" before the \"end\"."
    case 5 => "Valid: hello@zovo.one, user.name+tag@example.co.uk\nInvalid: user@, @domain.com, test@.com, plain-text"
    case 6 => "Visit https://zovo.one or http://example.com/path?q=test&lang=en\nNot URLs: ftp://server, just-text, www.missing-protocol.com"
    case 7 => "US: +1 (555) 123-4567\nUK: +44 20 7946 0958\nDE: +49 30 12345678\nSimple: 555.987.6543"
    case 8 => "Visa: 4111 1111 1111 1111\nMastercard: 5500-0000-0000-0004\nAmex: 378282246310005\nNot a card: 123456"
    case 9 => "Str0ng@Pass\nweak\n12345678\nNoSpecial1\nGood$ecure1\nab1!"
    case 10 => "[2024-01-15] 192.168.1.1 connected\n[ERROR] Blocked: 10.0.0.255\nProxy: 203.0.113.42 \U{2192} 172.16.0.1"
    case 11 => "Created: 2024-01-15\nDue: 2024/03/22\nLaunch: 2025-12-31\nInvalid: 2024-1-5"
    case 12 => "Primary: #6366f1\nBackground: #fff\nError: #FF5733\nBorder: #E0E7FF\nNot hex: #xyz, #12"
    case 13 => "Check out #RegexTesterPro by #Zovo! Best #developer #tools for #productivity and #WebDev \U{1F680}"
    case 14 => "Prices: $29.99, \U{20AC}49.50, \U{A3}120, \U{A5}9800\nAlso: 199.99 USD, 45 EUR, 30.00 GBP"
    case 15 => "Team: John Smith, Jane Doe, Bob Wilson, Alice Chang"
    case 16 => "Born: 1990-05-23\nHired: 2020-09-01\nDeadline: 2025-12-31"
    case 17 => "name: John\nage: 30\ncity: Berlin\nrole: developer\nstatus: active"
    case 18 => "width: 100px, height: 200em, count: 42, size: 16px, total: 999"
    case 19 => "<div class=\"box\"><span>Hello</span><br/><p>World</p></div>"
    case 20 => "This is is a test test of the the duplicate word word finder."
    case 21 => "<div class=\"container\">\n  <h1>Title</h1>\n  <p>Text <strong>bold</strong></p>\n  <img src=\"photo.jpg\" />\n</div>"
    case 22 => "color: #6366f1;\nfont-size: 14px;\nbackground-color: rgba(0,0,0,0.5);\nmargin: 10px 20px;\ndisplay: flex;"
    case 23 => "import React from 'react';\nimport { useState, useEffect } from 'react';\nimport axios from 'axios';\nimport { Button } from '@mui/material';"
    case 24 => "{\"name\": \"Zovo\", \"version\": \"1.0.0\", \"description\": \"Regex Tester\", \"author\": \"Zovo Team\", \"license\": \"MIT\"}"
    case 25 => "GET /api/users\nPOST /api/users/:id/profile\nDELETE /api/posts/123\nPUT /api/settings?theme=dark\nPATCH /api/v2/orders/:orderId"
    case 26 => "[INFO] Server started on port 3000\n[WARN] Deprecated API call from 192.168.1.5\n[ERROR] Database connection failed\n[DEBUG] Query took 45ms\n[FATAL] Out of memory"
    case 27 => "2024-01-15T09:30:00Z\n2024-03-22T14:15:30.123Z\n2025-12-31T23:59:59+05:30\n2024-06-01T00:00:00-08:00"
    case 28 => "John,Doe,\"New York, NY\",30,\"Software Engineer\"\nJane,Smith,London,25,\"Product Manager\""
    case 29 => "Error: Cannot read property\n  at src/popup/popup.js:125\n  at utils/helpers.ts:42\n  at node_modules/express/lib/router.js:300\n  at app.py:88"
    case 30 => "User: 550e8400-e29b-41d4-a716-446655440000\nSession: 6ba7b810-9dad-41d4-80b4-00c04fd430c8\nNot UUID: 12345678-1234-1234-1234-123456789012"
    case 31 => "English: Hello\nFrench: Bonjour\nJapanese: \U{3053}\U{3093}\U{306B}\U{3061}\U{306F}\nArabic: \U{645}\U{631}\U{62D}\U{628}\U{627}\nKorean: \U{C548}\U{B155}\U{D558}\U{C138}\U{C694}\nRussian: \U{41F}\U{440}\U{438}\U{432}\U{435}\U{442}"
    case 32 => "Great job! \U{1F389} Love this \U{1F680} extension \U{2764}\U{FE0F} Best regex tool \U{1F525} ever made \U{1F4AF} by Zovo \U{2B50}"
    case 33 => "Chinese: \U{4F60}\U{597D}\U{4E16}\U{754C} (hello world)\nJapanese: \U{6B63}\U{898F}\U{8868}\U{73FE}\U{30C6}\U{30B9}\U{30C8} (regex test)\nKorean: \U{C815}\U{ADDC}\U{C2DD} \U{D14C}\U{C2A4}\U{D130} (regex tester)"
    case 34 => "US: 90210, 10001-2345\nUK: SW1A 1AA, EC2R 8AH\nNL: 1012 AB\nJP: 100-0001\nDE: 10115"
    case 35 => "<h1>Hello</h1>\n<p>This is <strong>bold</strong> and <em>italic</em> text.</p>\n<a href=\"#\">Click me</a>"
    case 36 => "Too   many    spaces   between\t\tthese\t  words   here."
    case 37 => "backgroundColor\nfontSize\nmarginTop\nborderRadius\nmaxWidth\ntextDecoration"
    case 38 => "Contact john@example.com or call +1-555-123-4567.\nAlternate: jane.doe@company.co.uk and +44 20 7946 0958."
    case _ => "Check out https://zovo.one for extensions.\nDocs at https://github.com/zovo/docs\nBlog: https://zovo.one/blog/regex-tips"
  }

  function SampleAt(i: nat): Sample
    requires i < SampleCount
  {
    Sample(CategoryName(CategoryIndex(i)), Name(i), Description(i), Pattern(i), Flags(i), TestString(i))
  }

  /** The whole table, as returned by the library's "all samples" query. */
  function All(): seq<Sample> {
    seq(SampleCount, (i: nat) requires i < SampleCount => SampleAt(i))
  }

  // ---------------------------------------------------------------------------
  // Categories

  function CategoriesOf(samples: seq<Sample>): (r: seq<string>)
    ensures |r| == |samples| && forall i | 0 <= i < |r| :: r[i] == samples[i].category
  {
    seq(|samples|, (i: nat) requires i < |samples| => samples[i].category)
  }

  /** Reference definition: the values of `xs`, each kept where it first
      appears. */
  function FirstAppearances<T(==)>(xs: seq<T>): seq<T> {
    if xs == [] then []
    else
      var init := xs[..|xs| - 1];
      var last := xs[|xs| - 1];
      if last in init then FirstAppearances(init) else FirstAppearances(init) + [last]
  }

  /** The position where `x` first occurs in `xs`. */
  function FirstIndex<T(==)>(xs: seq<T>, x: T): (r: nat)
    requires x in xs
    ensures r < |xs| && xs[r] == x && x !in xs[..r]
  {
    if xs[0] == x then 0 else 1 + FirstIndex(xs[1..], x)
  }

  /** The categories, each once, in order of first appearance: the library
      walks the table with a set of titles already seen. */
  method GetCategories(samples: seq<Sample>) returns (cats: seq<string>)
    ensures cats == FirstAppearances(CategoriesOf(samples))
  {
    var cs := CategoriesOf(samples);
    cats := [];
    var seen: set<string> := {};
    var i := 0;
    while i < |samples|
      invariant i <= |samples|
      invariant cats == FirstAppearances(cs[..i])
      invariant forall c :: c in seen <==> c in cs[..i]
    {
      var c := samples[i].category;
      assert cs[..i + 1][..i] == cs[..i];
      if c !in seen {
        seen := seen + {c};
        cats := cats + [c];
      }
      i := i + 1;
    }
    assert cs[..|samples|] == cs;
  }

  // ---------------------------------------------------------------------------
  // Filtering by category

  /** The samples whose category is `category`, in table order. A value that
      is not a string equals no category. */
  function ByCategory(samples: seq<Sample>, category: Value): (r: seq<Sample>)
    ensures |r| <= |samples|
    ensures forall x :: x in r <==> x in samples && category == Str(x.category)
  {
    if samples == [] then []
    else
      var rest := ByCategory(samples[1..], category);
      if category == Str(samples[0].category) then [samples[0]] + rest else rest
  }
}
