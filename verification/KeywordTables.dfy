/** The token codes of parse.h. */
module TokenCodes {
  const TK_SEMI: int := 1
  const TK_EXPLAIN: int := 2
  const TK_QUERY: int := 3
  const TK_PLAN: int := 4
  const TK_BEGIN: int := 5
  const TK_TRANSACTION: int := 6
  const TK_DEFERRED: int := 7
  const TK_IMMEDIATE: int := 8
  const TK_EXCLUSIVE: int := 9
  const TK_COMMIT: int := 10
  const TK_END: int := 11
  const TK_ROLLBACK: int := 12
  const TK_SAVEPOINT: int := 13
  const TK_RELEASE: int := 14
  const TK_TO: int := 15
  const TK_TABLE: int := 16
  const TK_CREATE: int := 17
  const TK_IF: int := 18
  const TK_NOT: int := 19
  const TK_EXISTS: int := 20
  const TK_TEMP: int := 21
  const TK_LP: int := 22
  const TK_RP: int := 23
  const TK_AS: int := 24
  const TK_WITHOUT: int := 25
  const TK_COMMA: int := 26
  const TK_OR: int := 27
  const TK_AND: int := 28
  const TK_IS: int := 29
  const TK_MATCH: int := 30
  const TK_LIKE_KW: int := 31
  const TK_BETWEEN: int := 32
  const TK_IN: int := 33
  const TK_ISNULL: int := 34
  const TK_NOTNULL: int := 35
  const TK_NE: int := 36
  const TK_EQ: int := 37
  const TK_GT: int := 38
  const TK_LE: int := 39
  const TK_LT: int := 40
  const TK_GE: int := 41
  const TK_ESCAPE: int := 42
  const TK_BITAND: int := 43
  const TK_BITOR: int := 44
  const TK_LSHIFT: int := 45
  const TK_RSHIFT: int := 46
  const TK_PLUS: int := 47
  const TK_MINUS: int := 48
  const TK_STAR: int := 49
  const TK_SLASH: int := 50
  const TK_REM: int := 51
  const TK_CONCAT: int := 52
  const TK_COLLATE: int := 53
  const TK_BITNOT: int := 54
  const TK_ID: int := 55
  const TK_INDEXED: int := 56
  const TK_ABORT: int := 57
  const TK_ACTION: int := 58
  const TK_AFTER: int := 59
  const TK_ANALYZE: int := 60
  const TK_ASC: int := 61
  const TK_ATTACH: int := 62
  const TK_BEFORE: int := 63
  const TK_BY: int := 64
  const TK_CASCADE: int := 65
  const TK_CAST: int := 66
  const TK_COLUMNKW: int := 67
  const TK_CONFLICT: int := 68
  const TK_DATABASE: int := 69
  const TK_DESC: int := 70
  const TK_DETACH: int := 71
  const TK_EACH: int := 72
  const TK_FAIL: int := 73
  const TK_FOR: int := 74
  const TK_IGNORE: int := 75
  const TK_INITIALLY: int := 76
  const TK_INSTEAD: int := 77
  const TK_NO: int := 78
  const TK_KEY: int := 79
  const TK_OF: int := 80
  const TK_OFFSET: int := 81
  const TK_PRAGMA: int := 82
  const TK_RAISE: int := 83
  const TK_RECURSIVE: int := 84
  const TK_REPLACE: int := 85
  const TK_RESTRICT: int := 86
  const TK_ROW: int := 87
  const TK_TRIGGER: int := 88
  const TK_VACUUM: int := 89
  const TK_VIEW: int := 90
  const TK_VIRTUAL: int := 91
  const TK_WITH: int := 92
  const TK_REINDEX: int := 93
  const TK_RENAME: int := 94
  const TK_CTIME_KW: int := 95
  const TK_ANY: int := 96
  const TK_STRING: int := 97
  const TK_JOIN_KW: int := 98
  const TK_CONSTRAINT: int := 99
  const TK_DEFAULT: int := 100
  const TK_NULL: int := 101
  const TK_PRIMARY: int := 102
  const TK_UNIQUE: int := 103
  const TK_CHECK: int := 104
  const TK_REFERENCES: int := 105
  const TK_AUTOINCR: int := 106
  const TK_ON: int := 107
  const TK_INSERT: int := 108
  const TK_DELETE: int := 109
  const TK_UPDATE: int := 110
  const TK_SET: int := 111
  const TK_DEFERRABLE: int := 112
  const TK_FOREIGN: int := 113
  const TK_DROP: int := 114
  const TK_UNION: int := 115
  const TK_ALL: int := 116
  const TK_EXCEPT: int := 117
  const TK_INTERSECT: int := 118
  const TK_SELECT: int := 119
  const TK_VALUES: int := 120
  const TK_DISTINCT: int := 121
  const TK_DOT: int := 122
  const TK_FROM: int := 123
  const TK_JOIN: int := 124
  const TK_USING: int := 125
  const TK_ORDER: int := 126
  const TK_GROUP: int := 127
  const TK_HAVING: int := 128
  const TK_LIMIT: int := 129
  const TK_WHERE: int := 130
  const TK_INTO: int := 131
  const TK_FLOAT: int := 132
  const TK_BLOB: int := 133
  const TK_INTEGER: int := 134
  const TK_VARIABLE: int := 135
  const TK_CASE: int := 136
  const TK_WHEN: int := 137
  const TK_THEN: int := 138
  const TK_ELSE: int := 139
  const TK_INDEX: int := 140
  const TK_ALTER: int := 141
  const TK_ADD: int := 142
  const TK_TO_TEXT: int := 143
  const TK_TO_BLOB: int := 144
  const TK_TO_NUMERIC: int := 145
  const TK_TO_INT: int := 146
  const TK_TO_REAL: int := 147
  const TK_ISNOT: int := 148
  const TK_END_OF_FILE: int := 149
  const TK_UNCLOSED_STRING: int := 150
  const TK_FUNCTION: int := 151
  const TK_COLUMN: int := 152
  const TK_AGG_FUNCTION: int := 153
  const TK_AGG_COLUMN: int := 154
  const TK_UMINUS: int := 155
  const TK_UPLUS: int := 156
  const TK_REGISTER: int := 157
  const TK_VECTOR: int := 158
  const TK_SELECT_COLUMN: int := 159
  const TK_ASTERISK: int := 160
  const TK_SPAN: int := 161
  const TK_SPACE: int := 162
  const TK_ILLEGAL: int := 163
}

/** The packed tables of the keyword hash, entry by entry; characters are ASCII codes. */
module KeywordTables {
  import opened TokenCodes

  const N_KEYWORD: int := 124
  const N_TEXT: int := 553
  const N_HASH: int := 127

  /** The overlapping text that holds every keyword. */
  function ZText(i: int): int
    requires 0 <= i < N_TEXT
  {
    if i < 276 then
     if i < 138 then
      if i < 69 then
       if i < 34 then
        if i < 17 then
         if i < 8 then
          if i < 4 then
           if i < 2 then if i < 1 then 82 else 69 else if i < 3 then 73 else 78
          else
           if i < 6 then if i < 5 then 68 else 69 else if i < 7 then 88 else 69
         else
          if i < 12 then
           if i < 10 then if i < 9 then 68 else 69 else if i < 11 then 83 else 67
          else
           if i < 14 then if i < 13 then 65 else 80 else if i < 15 then 69 else if i < 16 then 65 else 67
        else
         if i < 25 then
          if i < 21 then
           if i < 19 then if i < 18 then 72 else 69 else if i < 20 then 67 else 75
          else
           if i < 23 then if i < 22 then 69 else 89 else if i < 24 then 66 else 69
         else
          if i < 29 then
           if i < 27 then if i < 26 then 70 else 79 else if i < 28 then 82 else 69
          else
           if i < 31 then if i < 30 then 73 else 71 else if i < 32 then 78 else if i < 33 then 79 else 82
       else
        if i < 51 then
         if i < 42 then
          if i < 38 then
           if i < 36 then if i < 35 then 69 else 71 else if i < 37 then 69 else 88
          else
           if i < 40 then if i < 39 then 80 else 76 else if i < 41 then 65 else 73
         else
          if i < 46 then
           if i < 44 then if i < 43 then 78 else 83 else if i < 45 then 84 else 69
          else
           if i < 48 then if i < 47 then 65 else 68 else if i < 49 then 68 else if i < 50 then 65 else 84
        else
         if i < 60 then
          if i < 55 then
           if i < 53 then if i < 52 then 65 else 66 else if i < 54 then 65 else 83
          else
           if i < 57 then if i < 56 then 69 else 76 else if i < 58 then 69 else if i < 59 then 67 else 84
         else
          if i < 64 then
           if i < 62 then if i < 61 then 65 else 66 else if i < 63 then 76 else 69
          else
           if i < 66 then if i < 65 then 70 else 84 else if i < 67 then 72 else if i < 68 then 69 else 78
      else
       if i < 103 then
        if i < 86 then
         if i < 77 then
          if i < 73 then
           if i < 71 then if i < 70 then 68 else 69 else if i < 72 then 70 else 69
          else
           if i < 75 then if i < 74 then 82 else 82 else if i < 76 then 65 else 66
         else
          if i < 81 then
           if i < 79 then if i < 78 then 76 else 69 else if i < 80 then 76 else 83
          else
           if i < 83 then if i < 82 then 69 else 88 else if i < 84 then 67 else if i < 85 then 69 else 80
        else
         if i < 94 then
          if i < 90 then
           if i < 88 then if i < 87 then 84 else 82 else if i < 89 then 65 else 78
          else
           if i < 92 then if i < 91 then 83 else 65 else if i < 93 then 67 else 84
         else
          if i < 98 then
           if i < 96 then if i < 95 then 73 else 79 else if i < 97 then 78 else 65
          else
           if i < 100 then if i < 99 then 84 else 85 else if i < 101 then 82 else if i < 102 then 65 else 76
       else
        if i < 120 then
         if i < 111 then
          if i < 107 then
           if i < 105 then if i < 104 then 84 else 69 else if i < 106 then 82 else 65
          else
           if i < 109 then if i < 108 then 73 else 83 else if i < 110 then 69 else 88
         else
          if i < 115 then
           if i < 113 then if i < 112 then 67 else 76 else if i < 114 then 85 else 83
          else
           if i < 117 then if i < 116 then 73 else 86 else if i < 118 then 69 else if i < 119 then 88 else 73
        else
         if i < 129 then
          if i < 124 then
           if i < 122 then if i < 121 then 83 else 84 else if i < 123 then 83 else 65
          else
           if i < 126 then if i < 125 then 86 else 69 else if i < 127 then 80 else if i < 128 then 79 else 73
         else
          if i < 133 then
           if i < 131 then if i < 130 then 78 else 84 else if i < 132 then 69 else 82
          else
           if i < 135 then if i < 134 then 83 else 69 else if i < 136 then 67 else if i < 137 then 84 else 82
     else
      if i < 207 then
       if i < 172 then
        if i < 155 then
         if i < 146 then
          if i < 142 then
           if i < 140 then if i < 139 then 73 else 71 else if i < 141 then 71 else 69
          else
           if i < 144 then if i < 143 then 82 else 69 else if i < 145 then 70 else 69
         else
          if i < 150 then
           if i < 148 then if i < 147 then 82 else 69 else if i < 149 then 78 else 67
          else
           if i < 152 then if i < 151 then 69 else 83 else if i < 153 then 67 else if i < 154 then 79 else 78
        else
         if i < 163 then
          if i < 159 then
           if i < 157 then if i < 156 then 83 else 84 else if i < 158 then 82 else 65
          else
           if i < 161 then if i < 160 then 73 else 78 else if i < 162 then 84 else 79
         else
          if i < 167 then
           if i < 165 then if i < 164 then 70 else 70 else if i < 166 then 83 else 69
          else
           if i < 169 then if i < 168 then 84 else 69 else if i < 170 then 77 else if i < 171 then 80 else 79
       else
        if i < 189 then
         if i < 180 then
          if i < 176 then
           if i < 174 then if i < 173 then 82 else 65 else if i < 175 then 82 else 89
          else
           if i < 178 then if i < 177 then 85 else 78 else if i < 179 then 73 else 81
         else
          if i < 184 then
           if i < 182 then if i < 181 then 85 else 69 else if i < 183 then 82 else 89
          else
           if i < 186 then if i < 185 then 87 else 73 else if i < 187 then 84 else if i < 188 then 72 else 79
        else
         if i < 198 then
          if i < 193 then
           if i < 191 then if i < 190 then 85 else 84 else if i < 192 then 69 else 82
          else
           if i < 195 then if i < 194 then 69 else 76 else if i < 196 then 69 else if i < 197 then 65 else 83
         else
          if i < 202 then
           if i < 200 then if i < 199 then 69 else 65 else if i < 201 then 84 else 84
          else
           if i < 204 then if i < 203 then 65 else 67 else if i < 205 then 72 else if i < 206 then 65 else 86
      else
       if i < 241 then
        if i < 224 then
         if i < 215 then
          if i < 211 then
           if i < 209 then if i < 208 then 73 else 78 else if i < 210 then 71 else 82
          else
           if i < 213 then if i < 212 then 79 else 85 else if i < 214 then 80 else 68
         else
          if i < 219 then
           if i < 217 then if i < 216 then 65 else 84 else if i < 218 then 69 else 66
          else
           if i < 221 then if i < 220 then 69 else 71 else if i < 222 then 73 else if i < 223 then 78 else 78
        else
         if i < 232 then
          if i < 228 then
           if i < 226 then if i < 225 then 69 else 82 else if i < 227 then 69 else 67
          else
           if i < 230 then if i < 229 then 85 else 82 else if i < 231 then 83 else 73
         else
          if i < 236 then
           if i < 234 then if i < 233 then 86 else 69 else if i < 235 then 66 else 69
          else
           if i < 238 then if i < 237 then 84 else 87 else if i < 239 then 69 else if i < 240 then 69 else 78
       else
        if i < 258 then
         if i < 249 then
          if i < 245 then
           if i < 243 then if i < 242 then 79 else 84 else if i < 244 then 78 else 85
          else
           if i < 247 then if i < 246 then 76 else 76 else if i < 248 then 73 else 75
         else
          if i < 253 then
           if i < 251 then if i < 250 then 69 else 67 else if i < 252 then 65 else 83
          else
           if i < 255 then if i < 254 then 67 else 65 else if i < 256 then 68 else if i < 257 then 69 else 76
        else
         if i < 267 then
          if i < 262 then
           if i < 260 then if i < 259 then 69 else 84 else if i < 261 then 69 else 67
          else
           if i < 264 then if i < 263 then 65 else 83 else if i < 265 then 69 else if i < 266 then 67 else 79
         else
          if i < 271 then
           if i < 269 then if i < 268 then 76 else 76 else if i < 270 then 65 else 84
          else
           if i < 273 then if i < 272 then 69 else 67 else if i < 274 then 82 else if i < 275 then 69 else 65
    else
     if i < 414 then
      if i < 345 then
       if i < 310 then
        if i < 293 then
         if i < 284 then
          if i < 280 then
           if i < 278 then if i < 277 then 84 else 69 else if i < 279 then 67 else 85
          else
           if i < 282 then if i < 281 then 82 else 82 else if i < 283 then 69 else 78
         else
          if i < 288 then
           if i < 286 then if i < 285 then 84 else 95 else if i < 287 then 68 else 65
          else
           if i < 290 then if i < 289 then 84 else 69 else if i < 291 then 68 else if i < 292 then 69 else 84
        else
         if i < 301 then
          if i < 297 then
           if i < 295 then if i < 294 then 65 else 67 else if i < 296 then 72 else 73
          else
           if i < 299 then if i < 298 then 77 else 77 else if i < 300 then 69 else 68
         else
          if i < 305 then
           if i < 303 then if i < 302 then 73 else 65 else if i < 304 then 84 else 69
          else
           if i < 307 then if i < 306 then 74 else 79 else if i < 308 then 73 else if i < 309 then 78 else 83
       else
        if i < 327 then
         if i < 318 then
          if i < 314 then
           if i < 312 then if i < 311 then 69 else 82 else if i < 313 then 84 else 77
          else
           if i < 316 then if i < 315 then 65 else 84 else if i < 317 then 67 else 72
         else
          if i < 322 then
           if i < 320 then if i < 319 then 80 else 76 else if i < 321 then 65 else 78
          else
           if i < 324 then if i < 323 then 65 else 76 else if i < 325 then 89 else if i < 326 then 90 else 69
        else
         if i < 336 then
          if i < 331 then
           if i < 329 then if i < 328 then 80 else 82 else if i < 330 then 65 else 71
          else
           if i < 333 then if i < 332 then 77 else 65 else if i < 334 then 66 else if i < 335 then 79 else 82
         else
          if i < 340 then
           if i < 338 then if i < 337 then 84 else 86 else if i < 339 then 65 else 76
          else
           if i < 342 then if i < 341 then 85 else 69 else if i < 343 then 83 else if i < 344 then 86 else 73
      else
       if i < 379 then
        if i < 362 then
         if i < 353 then
          if i < 349 then
           if i < 347 then if i < 346 then 82 else 84 else if i < 348 then 85 else 65
          else
           if i < 351 then if i < 350 then 76 else 73 else if i < 352 then 77 else 73
         else
          if i < 357 then
           if i < 355 then if i < 354 then 84 else 87 else if i < 356 then 72 else 69
          else
           if i < 359 then if i < 358 then 78 else 87 else if i < 360 then 72 else if i < 361 then 69 else 82
        else
         if i < 370 then
          if i < 366 then
           if i < 364 then if i < 363 then 69 else 78 else if i < 365 then 65 else 77
          else
           if i < 368 then if i < 367 then 69 else 65 else if i < 369 then 70 else 84
         else
          if i < 374 then
           if i < 372 then if i < 371 then 69 else 82 else if i < 373 then 69 else 80
          else
           if i < 376 then if i < 375 then 76 else 65 else if i < 377 then 67 else if i < 378 then 69 else 65
       else
        if i < 396 then
         if i < 387 then
          if i < 383 then
           if i < 381 then if i < 380 then 78 else 68 else if i < 382 then 69 else 70
          else
           if i < 385 then if i < 384 then 65 else 85 else if i < 386 then 76 else 84
         else
          if i < 391 then
           if i < 389 then if i < 388 then 65 else 85 else if i < 390 then 84 else 79
          else
           if i < 393 then if i < 392 then 73 else 78 else if i < 394 then 67 else if i < 395 then 82 else 69
        else
         if i < 405 then
          if i < 400 then
           if i < 398 then if i < 397 then 77 else 69 else if i < 399 then 78 else 84
          else
           if i < 402 then if i < 401 then 67 else 65 else if i < 403 then 83 else if i < 404 then 84 else 67
         else
          if i < 409 then
           if i < 407 then if i < 406 then 79 else 76 else if i < 408 then 85 else 77
          else
           if i < 411 then if i < 410 then 78 else 67 else if i < 412 then 79 else if i < 413 then 77 else 77
     else
      if i < 483 then
       if i < 448 then
        if i < 431 then
         if i < 422 then
          if i < 418 then
           if i < 416 then if i < 415 then 73 else 84 else if i < 417 then 67 else 79
          else
           if i < 420 then if i < 419 then 78 else 70 else if i < 421 then 76 else 73
         else
          if i < 426 then
           if i < 424 then if i < 423 then 67 else 84 else if i < 425 then 67 else 82
          else
           if i < 428 then if i < 427 then 79 else 83 else if i < 429 then 83 else if i < 430 then 67 else 85
        else
         if i < 439 then
          if i < 435 then
           if i < 433 then if i < 432 then 82 else 82 else if i < 434 then 69 else 78
          else
           if i < 437 then if i < 436 then 84 else 95 else if i < 438 then 84 else 73
         else
          if i < 443 then
           if i < 441 then if i < 440 then 77 else 69 else if i < 442 then 83 else 84
          else
           if i < 445 then if i < 444 then 65 else 77 else if i < 446 then 80 else if i < 447 then 82 else 73
       else
        if i < 465 then
         if i < 456 then
          if i < 452 then
           if i < 450 then if i < 449 then 77 else 65 else if i < 451 then 82 else 89
          else
           if i < 454 then if i < 453 then 68 else 69 else if i < 455 then 70 else 69
         else
          if i < 460 then
           if i < 458 then if i < 457 then 82 else 82 else if i < 459 then 69 else 68
          else
           if i < 462 then if i < 461 then 73 else 83 else if i < 463 then 84 else if i < 464 then 73 else 78
        else
         if i < 474 then
          if i < 469 then
           if i < 467 then if i < 466 then 67 else 84 else if i < 468 then 68 else 82
          else
           if i < 471 then if i < 470 then 79 else 80 else if i < 472 then 70 else if i < 473 then 65 else 73
         else
          if i < 478 then
           if i < 476 then if i < 475 then 76 else 70 else if i < 477 then 82 else 79
          else
           if i < 480 then if i < 479 then 77 else 70 else if i < 481 then 85 else if i < 482 then 76 else 76
      else
       if i < 518 then
        if i < 500 then
         if i < 491 then
          if i < 487 then
           if i < 485 then if i < 484 then 71 else 76 else if i < 486 then 79 else 66
          else
           if i < 489 then if i < 488 then 89 else 73 else if i < 490 then 70 else 73
         else
          if i < 495 then
           if i < 493 then if i < 492 then 83 else 78 else if i < 494 then 85 else 76
          else
           if i < 497 then if i < 496 then 76 else 79 else if i < 498 then 82 else if i < 499 then 68 else 69
        else
         if i < 509 then
          if i < 504 then
           if i < 502 then if i < 501 then 82 else 69 else if i < 503 then 83 else 84
          else
           if i < 506 then if i < 505 then 82 else 73 else if i < 507 then 67 else if i < 508 then 84 else 82
         else
          if i < 513 then
           if i < 511 then if i < 510 then 73 else 71 else if i < 512 then 72 else 84
          else
           if i < 515 then if i < 514 then 82 else 79 else if i < 516 then 76 else if i < 517 then 76 else 66
       else
        if i < 535 then
         if i < 526 then
          if i < 522 then
           if i < 520 then if i < 519 then 65 else 67 else if i < 521 then 75 else 82
          else
           if i < 524 then if i < 523 then 79 else 87 else if i < 525 then 85 else 78
         else
          if i < 530 then
           if i < 528 then if i < 527 then 73 else 79 else if i < 529 then 78 else 85
          else
           if i < 532 then if i < 531 then 83 else 73 else if i < 533 then 78 else if i < 534 then 71 else 86
        else
         if i < 544 then
          if i < 539 then
           if i < 537 then if i < 536 then 65 else 67 else if i < 538 then 85 else 85
          else
           if i < 541 then if i < 540 then 77 else 86 else if i < 542 then 73 else if i < 543 then 69 else 87
         else
          if i < 548 then
           if i < 546 then if i < 545 then 73 else 78 else if i < 547 then 73 else 84
          else
           if i < 550 then if i < 549 then 73 else 65 else if i < 551 then 76 else if i < 552 then 76 else 89
  }

  /** One more than the first keyword of each chain, or zero. */
  function AHash(h: int): int
    requires 0 <= h < N_HASH
  {
    if h < 63 then
     if h < 32 then
      if h < 16 then
       if h < 8 then
        if h < 3 then
         if h < 1 then 76 else if h < 2 then 105 else 117
        else
         if h < 5 then if h < 4 then 74 else 0 else if h < 6 then 45 else 0
       else
        if h < 11 then
         if h < 9 then 82 else if h < 10 then 0 else 77
        else
         if h < 14 then if h < 13 then 0 else 42 else if h < 15 then 12 else 78
      else
       if h < 23 then
        if h < 19 then
         if h < 17 then 15 else if h < 18 then 0 else 116
        else
         if h < 21 then if h < 20 then 85 else 54 else if h < 22 then 112 else 0
       else
        if h < 28 then
         if h < 26 then if h < 24 then 19 else 0 else if h < 27 then 121 else 0
        else
         if h < 30 then if h < 29 then 119 else 115 else if h < 31 then 0 else 22
     else
      if h < 47 then
       if h < 40 then
        if h < 35 then
         if h < 33 then 93 else if h < 34 then 0 else 9
        else
         if h < 38 then if h < 37 then 0 else 70 else if h < 39 then 71 else 0
       else
        if h < 43 then
         if h < 41 then 69 else if h < 42 then 6 else 0
        else
         if h < 45 then if h < 44 then 48 else 90 else if h < 46 then 102 else 0
      else
       if h < 55 then
        if h < 51 then
         if h < 48 then 118 else if h < 49 then 101 else 0
        else
         if h < 53 then if h < 52 then 44 else 0 else if h < 54 then 103 else 24
       else
        if h < 59 then
         if h < 57 then if h < 56 then 0 else 17 else if h < 58 then 0 else 122
        else
         if h < 61 then if h < 60 then 53 else 23 else if h < 62 then 0 else 5
    else
     if h < 95 then
      if h < 78 then
       if h < 71 then
        if h < 66 then
         if h < 64 then 110 else if h < 65 then 25 else 96
        else
         if h < 69 then if h < 68 then 0 else 124 else if h < 70 then 106 else 60
       else
        if h < 74 then
         if h < 72 then 123 else if h < 73 then 57 else 28
        else
         if h < 76 then if h < 75 then 55 else 0 else if h < 77 then 91 else 0
      else
       if h < 87 then
        if h < 81 then
         if h < 79 then 100 else if h < 80 then 26 else 0
        else
         if h < 85 then if h < 82 then 99 else 0 else if h < 86 then 95 else 92
       else
        if h < 91 then
         if h < 89 then if h < 88 then 97 else 88 else if h < 90 then 109 else 14
        else
         if h < 93 then if h < 92 then 39 else 108 else if h < 94 then 0 else 81
     else
      if h < 111 then
       if h < 102 then
        if h < 98 then
         if h < 96 then 0 else if h < 97 then 18 else 89
        else
         if h < 100 then if h < 99 then 111 else 32 else if h < 101 then 0 else 120
       else
        if h < 106 then
         if h < 104 then if h < 103 then 80 else 113 else if h < 105 then 62 else 46
        else
         if h < 109 then if h < 107 then 84 else 0 else if h < 110 then 94 else 40
      else
       if h < 119 then
        if h < 114 then
         if h < 112 then 59 else if h < 113 then 114 else 0
        else
         if h < 117 then if h < 115 then 36 else 0 else if h < 118 then 29 else 0
       else
        if h < 123 then
         if h < 121 then if h < 120 then 86 else 63 else if h < 122 then 64 else 0
        else
         if h < 125 then if h < 124 then 20 else 61 else if h < 126 then 0 else 56
  }

  /** One more than the next keyword of the chain, or zero. */
  function ANext(i: int): int
    requires 0 <= i < N_KEYWORD
  {
    if i < 81 then
     if i < 54 then
      if i < 28 then
       if i < 15 then
        if i < 5 then if i < 4 then 0 else 4 else if i < 14 then 0 else 2
       else
        if i < 22 then if i < 21 then 0 else 13 else if i < 27 then 0 else 7
      else
       if i < 46 then
        if i < 44 then if i < 43 then 0 else 33 else if i < 45 then 0 else 21
       else
        if i < 52 then if i < 51 then 0 else 50 else if i < 53 then 0 else 43
     else
      if i < 65 then
       if i < 61 then
        if i < 56 then if i < 55 then 3 else 47 else if i < 60 then 0 else 30
       else
        if i < 63 then if i < 62 then 0 else 58 else if i < 64 then 0 else 38
      else
       if i < 72 then
        if i < 69 then if i < 68 then 0 else 1 else if i < 70 then 66 else 0
       else
        if i < 74 then if i < 73 then 67 else 0 else if i < 75 then 41 else 0
    else
     if i < 106 then
      if i < 92 then
       if i < 88 then
        if i < 83 then if i < 82 then 49 else 65 else if i < 87 then 0 else 31
       else
        if i < 90 then if i < 89 then 52 else 16 else if i < 91 then 34 else 10
      else
       if i < 102 then
        if i < 100 then if i < 99 then 0 else 11 else if i < 101 then 72 else 79
       else
        if i < 104 then if i < 103 then 0 else 8 else if i < 105 then 0 else 104
     else
      if i < 114 then
       if i < 110 then
        if i < 108 then if i < 107 then 98 else 0 else if i < 109 then 107 else 0
       else
        if i < 112 then if i < 111 then 87 else 0 else if i < 113 then 75 else 51
      else
       if i < 118 then
        if i < 116 then if i < 115 then 0 else 27 else if i < 117 then 37 else 73
       else
        if i < 120 then if i < 119 then 83 else 0 else if i < 121 then 35 else if i < 122 then 68 else 0
  }

  function ALen(i: int): int
    requires 0 <= i < N_KEYWORD
  {
    if i < 62 then
     if i < 30 then
      if i < 16 then
       if i < 7 then
        if i < 4 then
         if i < 2 then 7 else if i < 3 then 5 else 4
        else
         if i < 5 then 6 else if i < 6 then 4 else 5
       else
        if i < 10 then
         if i < 8 then 3 else if i < 9 then 6 else 7
        else
         if i < 13 then if i < 11 then 3 else 6 else if i < 15 then 7 else 3
      else
       if i < 23 then
        if i < 19 then
         if i < 17 then 8 else if i < 18 then 2 else 6
        else
         if i < 20 then 5 else if i < 22 then 4 else 3
       else
        if i < 26 then
         if i < 24 then 10 else if i < 25 then 4 else 6
        else
         if i < 28 then if i < 27 then 11 else 6 else if i < 29 then 2 else 7
     else
      if i < 46 then
       if i < 39 then
        if i < 34 then
         if i < 32 then 5 else if i < 33 then 9 else 6
        else
         if i < 36 then 9 else if i < 37 then 7 else 10
       else
        if i < 42 then
         if i < 40 then 4 else if i < 41 then 6 else 2
        else
         if i < 44 then if i < 43 then 3 else 9 else if i < 45 then 4 else 2
      else
       if i < 52 then
        if i < 49 then
         if i < 47 then 6 else if i < 48 then 5 else 7
        else
         if i < 50 then 4 else if i < 51 then 5 else 7
       else
        if i < 56 then
         if i < 54 then 6 else if i < 55 then 5 else 6
        else
         if i < 59 then if i < 58 then 5 else 9 else if i < 61 then 7 else 3
    else
     if i < 89 then
      if i < 76 then
       if i < 69 then
        if i < 66 then
         if i < 63 then 2 else if i < 65 then 4 else 7
        else
         if i < 67 then 3 else if i < 68 then 6 else 4
       else
        if i < 72 then
         if i < 70 then 7 else if i < 71 then 6 else 12
        else
         if i < 74 then if i < 73 then 6 else 9 else if i < 75 then 4 else 6
      else
       if i < 82 then
        if i < 79 then
         if i < 77 then 5 else if i < 78 then 4 else 7
        else
         if i < 80 then 6 else if i < 81 then 5 else 6
       else
        if i < 85 then
         if i < 83 then 7 else if i < 84 then 5 else 4
        else
         if i < 87 then if i < 86 then 5 else 6 else if i < 88 then 5 else 7
     else
      if i < 105 then
       if i < 97 then
        if i < 92 then
         if i < 90 then 3 else if i < 91 then 7 else 13
        else
         if i < 94 then 2 else if i < 95 then 4 else 6
       else
        if i < 100 then
         if i < 98 then 8 else if i < 99 then 5 else 17
        else
         if i < 102 then if i < 101 then 12 else 7 else if i < 104 then 8 else 2
      else
       if i < 116 then
        if i < 113 then
         if i < 110 then 4 else if i < 112 then 2 else 6
        else
         if i < 114 then 5 else if i < 115 then 8 else 5
       else
        if i < 120 then
         if i < 117 then 8 else if i < 118 then 3 else 5
        else
         if i < 122 then if i < 121 then 6 else 4 else if i < 123 then 9 else 3
  }

  function AOffset(i: int): int
    requires 0 <= i < N_KEYWORD
  {
    if i < 62 then
     if i < 31 then
      if i < 15 then
       if i < 7 then
        if i < 3 then
         if i < 1 then 0 else if i < 2 then 2 else 2
        else
         if i < 5 then if i < 4 then 8 else 9 else if i < 6 then 14 else 16
       else
        if i < 11 then
         if i < 9 then if i < 8 then 20 else 23 else if i < 10 then 25 else 25
        else
         if i < 13 then if i < 12 then 29 else 33 else if i < 14 then 36 else 41
      else
       if i < 23 then
        if i < 19 then
         if i < 17 then if i < 16 then 46 else 48 else if i < 18 then 53 else 54
        else
         if i < 21 then if i < 20 then 59 else 62 else if i < 22 then 65 else 67
       else
        if i < 27 then
         if i < 25 then if i < 24 then 69 else 78 else if i < 26 then 81 else 86
        else
         if i < 29 then if i < 28 then 91 else 95 else if i < 30 then 96 else 101
     else
      if i < 46 then
       if i < 38 then
        if i < 34 then
         if i < 32 then 105 else if i < 33 then 109 else 117
        else
         if i < 36 then if i < 35 then 122 else 128 else if i < 37 then 136 else 142
       else
        if i < 42 then
         if i < 40 then if i < 39 then 152 else 159 else if i < 41 then 162 else 162
        else
         if i < 44 then if i < 43 then 165 else 167 else if i < 45 then 167 else 171
      else
       if i < 54 then
        if i < 50 then
         if i < 48 then if i < 47 then 176 else 179 else if i < 49 then 184 else 184
        else
         if i < 52 then if i < 51 then 188 else 192 else if i < 53 then 199 else 204
       else
        if i < 58 then
         if i < 56 then if i < 55 then 209 else 212 else if i < 57 then 218 else 221
        else
         if i < 60 then if i < 59 then 225 else 234 else if i < 61 then 240 else 240
    else
     if i < 93 then
      if i < 77 then
       if i < 69 then
        if i < 65 then
         if i < 63 then 240 else if i < 64 then 243 else 246
        else
         if i < 67 then if i < 66 then 250 else 251 else if i < 68 then 255 else 261
       else
        if i < 73 then
         if i < 71 then if i < 70 then 265 else 272 else if i < 72 then 278 else 290
        else
         if i < 75 then if i < 74 then 296 else 305 else if i < 76 then 307 else 313
      else
       if i < 85 then
        if i < 81 then
         if i < 79 then if i < 78 then 318 else 320 else if i < 80 then 327 else 332
        else
         if i < 83 then if i < 82 then 337 else 343 else if i < 84 then 349 else 354
       else
        if i < 89 then
         if i < 87 then if i < 86 then 358 else 361 else if i < 88 then 367 else 371
        else
         if i < 91 then if i < 90 then 378 else 380 else if i < 92 then 387 else 389
     else
      if i < 108 then
       if i < 100 then
        if i < 96 then
         if i < 94 then 391 else if i < 95 then 400 else 404
        else
         if i < 98 then if i < 97 then 410 else 416 else if i < 99 then 424 else 429
       else
        if i < 104 then
         if i < 102 then if i < 101 then 429 else 445 else if i < 103 then 452 else 459
        else
         if i < 106 then if i < 105 then 460 else 467 else if i < 107 then 471 else 475
      else
       if i < 116 then
        if i < 112 then
         if i < 110 then if i < 109 then 479 else 483 else if i < 111 then 486 else 488
        else
         if i < 114 then if i < 113 then 490 else 496 else if i < 115 then 500 else 508
       else
        if i < 120 then
         if i < 118 then if i < 117 then 513 else 521 else if i < 119 then 524 else 529
        else
         if i < 122 then if i < 121 then 534 else 540 else if i < 123 then 544 else 549
  }

  function ACode(i: int): int
    requires 0 <= i < N_KEYWORD
  {
    if i < 62 then
     if i < 31 then
      if i < 15 then
       if i < 7 then
        if i < 3 then
         if i < 1 then TK_REINDEX else if i < 2 then TK_INDEXED else TK_INDEX
        else
         if i < 5 then if i < 4 then TK_DESC else TK_ESCAPE else if i < 6 then TK_EACH else TK_CHECK
       else
        if i < 11 then
         if i < 9 then if i < 8 then TK_KEY else TK_BEFORE else if i < 10 then TK_FOREIGN else TK_FOR
        else
         if i < 13 then
          if i < 12 then TK_IGNORE else TK_LIKE_KW
         else
          if i < 14 then TK_EXPLAIN else TK_INSTEAD
      else
       if i < 23 then
        if i < 19 then
         if i < 17 then if i < 16 then TK_ADD else TK_DATABASE else if i < 18 then TK_AS else TK_SELECT
        else
         if i < 21 then if i < 20 then TK_TABLE else TK_JOIN_KW else if i < 22 then TK_THEN else TK_END
       else
        if i < 27 then
         if i < 25 then
          if i < 24 then TK_DEFERRABLE else TK_ELSE
         else
          if i < 26 then TK_EXCEPT else TK_TRANSACTION
        else
         if i < 29 then if i < 28 then TK_ACTION else TK_ON else if i < 30 then TK_JOIN_KW else TK_ALTER
     else
      if i < 46 then
       if i < 38 then
        if i < 34 then
         if i < 32 then TK_RAISE else if i < 33 then TK_EXCLUSIVE else TK_EXISTS
        else
         if i < 36 then
          if i < 35 then TK_SAVEPOINT else TK_INTERSECT
         else
          if i < 37 then TK_TRIGGER else TK_REFERENCES
       else
        if i < 42 then
         if i < 40 then if i < 39 then TK_CONSTRAINT else TK_INTO else if i < 41 then TK_OFFSET else TK_OF
        else
         if i < 44 then if i < 43 then TK_SET else TK_TEMP else if i < 45 then TK_TEMP else TK_OR
      else
       if i < 54 then
        if i < 50 then
         if i < 48 then if i < 47 then TK_UNIQUE else TK_QUERY else if i < 49 then TK_WITHOUT else TK_WITH
        else
         if i < 52 then if i < 51 then TK_JOIN_KW else TK_RELEASE else if i < 53 then TK_ATTACH else TK_HAVING
       else
        if i < 58 then
         if i < 56 then if i < 55 then TK_GROUP else TK_UPDATE else if i < 57 then TK_BEGIN else TK_JOIN_KW
        else
         if i < 60 then if i < 59 then TK_RECURSIVE else TK_BETWEEN else if i < 61 then TK_NOTNULL else TK_NOT
    else
     if i < 93 then
      if i < 77 then
       if i < 69 then
        if i < 65 then
         if i < 63 then TK_NO else if i < 64 then TK_NULL else TK_LIKE_KW
        else
         if i < 67 then if i < 66 then TK_CASCADE else TK_ASC else if i < 68 then TK_DELETE else TK_CASE
       else
        if i < 73 then
         if i < 71 then
          if i < 70 then TK_COLLATE else TK_CREATE
         else
          if i < 72 then TK_CTIME_KW else TK_DETACH
        else
         if i < 75 then if i < 74 then TK_IMMEDIATE else TK_JOIN else if i < 76 then TK_INSERT else TK_MATCH
      else
       if i < 85 then
        if i < 81 then
         if i < 79 then if i < 78 then TK_PLAN else TK_ANALYZE else if i < 80 then TK_PRAGMA else TK_ABORT
        else
         if i < 83 then if i < 82 then TK_VALUES else TK_VIRTUAL else if i < 84 then TK_LIMIT else TK_WHEN
       else
        if i < 89 then
         if i < 87 then if i < 86 then TK_WHERE else TK_RENAME else if i < 88 then TK_AFTER else TK_REPLACE
        else
         if i < 91 then if i < 90 then TK_AND else TK_DEFAULT else if i < 92 then TK_AUTOINCR else TK_TO
     else
      if i < 108 then
       if i < 100 then
        if i < 96 then
         if i < 94 then TK_IN else if i < 95 then TK_CAST else TK_COLUMNKW
        else
         if i < 98 then
          if i < 97 then TK_COMMIT else TK_CONFLICT
         else
          if i < 99 then TK_JOIN_KW else TK_CTIME_KW
       else
        if i < 104 then
         if i < 102 then
          if i < 101 then TK_CTIME_KW else TK_PRIMARY
         else
          if i < 103 then TK_DEFERRED else TK_DISTINCT
        else
         if i < 106 then if i < 105 then TK_IS else TK_DROP else if i < 107 then TK_FAIL else TK_FROM
      else
       if i < 116 then
        if i < 112 then
         if i < 110 then if i < 109 then TK_JOIN_KW else TK_LIKE_KW else if i < 111 then TK_BY else TK_IF
        else
         if i < 114 then
          if i < 113 then TK_ISNULL else TK_ORDER
         else
          if i < 115 then TK_RESTRICT else TK_JOIN_KW
       else
        if i < 120 then
         if i < 118 then if i < 117 then TK_ROLLBACK else TK_ROW else if i < 119 then TK_UNION else TK_USING
        else
         if i < 122 then if i < 121 then TK_VACUUM else TK_VIEW else if i < 123 then TK_INITIALLY else TK_ALL
  }
}
